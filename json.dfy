// The JavaScript values the dispatch core passes around as parsed bodies,
// error payloads and response bodies: the JSON subset, with JavaScript
// truthiness and a serialiser standing in for `JSON.stringify`.

module Json {
  import opened Wrappers
  import opened Strings
  import Coercion

  /** A JSON value; a number keeps the sign and digits it was read from, and is printed in canonical form. */
  datatype Json =
    | JNull
    | JBool(b: bool)
    | JNum(n: Coercion.Decimal)
    | JStr(s: string)
    | JArr(items: seq<Json>)
    | JObj(fields: seq<(string, Json)>)

  /** A decimal whose digits are all zero denotes 0 (or -0). */
  predicate IsZero(d: Coercion.Decimal)
  {
    (forall i :: 0 <= i < |d.whole| ==> d.whole[i] == '0') &&
    (d.fraction.Some? ==> forall i :: 0 <= i < |d.fraction.value| ==> d.fraction.value[i] == '0')
  }

  /** JavaScript truthiness: null, false, 0 and "" are falsy; arrays and objects are truthy. */
  predicate Truthy(j: Json)
  {
    match j
    case JNull => false
    case JBool(b) => b
    case JNum(d) => !IsZero(d)
    case JStr(s) => s != ""
    case _ => true
  }

  /**
   * The value of a field as property access reads it on the object
   * `JSON.parse` builds, where a later duplicate name overwrites an earlier one.
   */
  function Field(j: Json, name: string): (r: Option<Json>)
    ensures r.Some? ==> j.JObj?
  {
    if !j.JObj? then None else FieldIn(j.fields, name)
  }

  function FieldIn(fields: seq<(string, Json)>, name: string): Option<Json>
  {
    if fields == [] then None
    else if fields[|fields| - 1].0 == name then Some(fields[|fields| - 1].1)
    else FieldIn(fields[..|fields| - 1], name)
  }

  /** The last field of that name wins, whatever comes before it. */
  lemma {:induction false} LastFieldWins(fields: seq<(string, Json)>, name: string, v: Json, later: seq<(string, Json)>)
    requires forall i :: 0 <= i < |later| ==> later[i].0 != name
    ensures FieldIn(fields + [(name, v)] + later, name) == Some(v)
  {
    if later == [] {
      assert fields + [(name, v)] + later == fields + [(name, v)];
    } else {
      var all := fields + [(name, v)] + later;
      var init := fields + [(name, v)] + later[..|later| - 1];
      assert all[..|all| - 1] == init && all[|all| - 1] == later[|later| - 1];
      assert FieldIn(all, name) == FieldIn(init, name);
      LastFieldWins(fields, name, v, later[..|later| - 1]);
    }
  }

  const LowerHexDigits := "0123456789abcdef"

  /**
   * How `JSON.stringify` writes one character of a string (QuoteJSONString,
   * section 25.5.2.3 of ECMA-262): quote and backslash behind a backslash,
   * the five control characters with a short escape as \b \t \n \f \r,
   * every other character below U+0020 as \u00 and two lower-case hex
   * digits, and any other character as itself.
   */
  function EscapeChar(c: char): (r: string)
    ensures |r| > 0
  {
    if c == '"' then ['\\', '"']
    else if c == '\\' then ['\\', '\\']
    else if c as int == 0x08 then ['\\', 'b']
    else if c as int == 0x09 then ['\\', 't']
    else if c as int == 0x0A then ['\\', 'n']
    else if c as int == 0x0C then ['\\', 'f']
    else if c as int == 0x0D then ['\\', 'r']
    else if c as int < 0x20 then ['\\', 'u', '0', '0', LowerHexDigits[c as int / 16], LowerHexDigits[c as int % 16]]
    else [c]
  }

  function Escape(s: string): string
  {
    if s == [] then [] else EscapeChar(s[0]) + Escape(s[1..])
  }

  function Quote(s: string): string
  {
    "\"" + Escape(s) + "\""
  }

  predicate Printable(t: string)
  {
    forall i :: 0 <= i < |t| ==> t[i] as int >= 0x20
  }

  lemma EscapeCharPrintable(c: char)
    ensures Printable(EscapeChar(c))
  {
    if c as int < 0x20 {
      HexDigitPrintable(c as int / 16);
      HexDigitPrintable(c as int % 16);
    }
  }

  lemma HexDigitPrintable(d: nat)
    requires d < 16
    ensures LowerHexDigits[d] as int >= 0x30
  {
  }

  lemma PrintableConcat(a: string, b: string)
    requires Printable(a) && Printable(b)
    ensures Printable(a + b)
  {
    assert forall i :: 0 <= i < |a + b| ==> (a + b)[i] == if i < |a| then a[i] else b[i - |a|];
  }

  /** A character of an escaped text: never a control character. */
  lemma {:induction false} EscapedPrintable(s: string)
    ensures Printable(Escape(s))
  {
    if s != [] {
      EscapedPrintable(s[1..]);
      EscapeCharPrintable(s[0]);
      PrintableConcat(EscapeChar(s[0]), Escape(s[1..]));
    }
  }

  /** The text `JSON.stringify` gives for a string holds no character below U+0020, so it is a valid JSON string. */
  lemma StringifiedStringPrintable(s: string)
    ensures forall i :: 0 <= i < |Stringify(JStr(s))| ==> Stringify(JStr(s))[i] as int >= 0x20
  {
    EscapedPrintable(s);
    PrintableConcat(['"'], Escape(s));
    PrintableConcat(['"'] + Escape(s), ['"']);
  }

  /** The value of a lower-case hex digit, as `JSON.parse` reads the four digits of a \u escape. */
  function HexValue(c: char): (r: Option<nat>)
    ensures r.Some? ==> r.value < 16
  {
    if '0' <= c <= '9' then Some(c as int - '0' as int)
    else if 'a' <= c <= 'f' then Some(c as int - 'a' as int + 10)
    else if 'A' <= c <= 'F' then Some(c as int - 'A' as int + 10)
    else None
  }

  /** The character a four-digit \u escape names, when it is one Dafny can hold. */
  function UnicodeEscape(d: string): Option<char>
    requires |d| == 4
  {
    var h := [HexValue(d[0]), HexValue(d[1]), HexValue(d[2]), HexValue(d[3])];
    if h[0].None? || h[1].None? || h[2].None? || h[3].None? then None
    else
      var v := 4096 * h[0].value + 256 * h[1].value + 16 * h[2].value + h[3].value;
      if 0xD800 <= v < 0xE000 then None else Some(v as char)
  }

  /**
   * How `JSON.parse` reads the characters between a string's quotes
   * (section 7 of RFC 8259): an escape gives back the character it stands
   * for, and a quote or control character that is not escaped is an error.
   */
  function Unescape(t: string): Option<string>
  {
    if t == [] then Some([])
    else if t[0] == '"' || t[0] as int < 0x20 then None
    else if t[0] != '\\' then
      Prepend(t[0], Unescape(t[1..]))
    else if |t| < 2 then None
    else
      var n := |t|;
      var c: Option<(char, nat)> :=
        if t[1] == '"' then Some(('"', 2))
        else if t[1] == '\\' then Some(('\\', 2))
        else if t[1] == '/' then Some(('/', 2))
        else if t[1] == 'b' then Some((0x08 as char, 2))
        else if t[1] == 't' then Some((0x09 as char, 2))
        else if t[1] == 'n' then Some((0x0A as char, 2))
        else if t[1] == 'f' then Some((0x0C as char, 2))
        else if t[1] == 'r' then Some((0x0D as char, 2))
        else if t[1] == 'u' && n >= 6 && UnicodeEscape(t[2..6]).Some? then Some((UnicodeEscape(t[2..6]).value, 6))
        else None;
      match c
      case None => None
      case Some((ch, k)) => Prepend(ch, Unescape(t[k..]))
  }

  lemma HexDigitValue(d: nat)
    requires d < 16
    ensures HexValue(LowerHexDigits[d]) == Some(d)
  {
  }

  /** `[c] + rest` when the rest was read, or the error. */
  function Prepend(c: char, rest: Option<string>): Option<string>
  {
    match rest
    case Some(r) => Some([c] + r)
    case None => None
  }

  /** One escaped character, then anything: `JSON.parse` reads the character back and goes on with the rest. */
  lemma UnescapeChar(c: char, rest: string)
    ensures Unescape(EscapeChar(c) + rest) == Prepend(c, Unescape(rest))
  {
    if |EscapeChar(c)| == 6 {
      UnescapeHex(c, rest);
    } else if |EscapeChar(c)| == 2 {
      UnescapeShort(c, rest);
    } else {
      var t := EscapeChar(c) + rest;
      assert t[1..] == rest;
    }
  }

  lemma UnescapeHex(c: char, rest: string)
    requires |EscapeChar(c)| == 6
    ensures Unescape(EscapeChar(c) + rest) == Prepend(c, Unescape(rest))
  {
    var t := EscapeChar(c) + rest;
    var d := [t[2], t[3], t[4], t[5]];
    HexDigitValue(c as int / 16);
    HexDigitValue(c as int % 16);
    assert t[2..6] == d == ['0', '0', LowerHexDigits[c as int / 16], LowerHexDigits[c as int % 16]];
    assert UnicodeEscape(d) == Some(c);
    assert t[6..] == rest;
  }

  lemma UnescapeShort(c: char, rest: string)
    requires |EscapeChar(c)| == 2
    ensures Unescape(EscapeChar(c) + rest) == Prepend(c, Unescape(rest))
  {
    var t := EscapeChar(c) + rest;
    assert t[2..] == rest;
  }

  /** `JSON.parse` reads back every string `JSON.stringify` wrote. */
  lemma {:induction false} UnescapeEscape(s: string)
    ensures Unescape(Escape(s)) == Some(s)
  {
    if s != [] {
      UnescapeEscape(s[1..]);
      UnescapeChar(s[0], Escape(s[1..]));
      assert [s[0]] + s[1..] == s;
    }
  }

  /**
   * `JSON.stringify` writes a number as the canonical text of the same
   * value: the numeric pattern reads it back as a canonical decimal whose
   * scaled value is the number's.
   */
  lemma NumberStringified(d: Coercion.Decimal, k: nat)
    requires Coercion.WellFormed(d)
    requires d.fraction.Some? ==> |d.fraction.value| <= k
    ensures Coercion.ParseDecimal(Stringify(JNum(d))) == Some(Coercion.Canonical(d))
    ensures Coercion.IsCanonical(Coercion.Canonical(d))
    ensures Coercion.Scaled(Coercion.Canonical(d), k) == Coercion.Scaled(d, k)
  {
    Coercion.NumberTextReadsBack(d);
    Coercion.CanonicalKeepsValue(d, k);
  }

  /** `JSON.stringify` of a value, without whitespace. */
  function Stringify(j: Json): string
    decreases j
  {
    match j
    case JNull => "null"
    case JBool(b) => if b then "true" else "false"
    case JNum(d) => Coercion.NumberText(d)
    case JStr(s) => Quote(s)
    case JArr(items) =>
      "[" + Join(seq(|items|, i requires 0 <= i < |items| => Stringify(items[i])), ",") + "]"
    case JObj(fields) =>
      "{" + Join(seq(|fields|, i requires 0 <= i < |fields| => Quote(fields[i].0) + ":" + Stringify(fields[i].1)), ",") + "}"
  }
}
