// Value coercion and repeated-key accumulation for the request parsers:
// `Parser.processString` (src/Model/Parser.ts), the oldest generation's
// `getProcessedValue` (src/lib/Context/__Coreum_Context.ts) and
// `objAppendEntry` (src/utils/objAppendEntry.ts).

module Coercion {
  import opened Wrappers
  import opened Strings

  /**
   * A string accepted by `/^-?\d+(\.\d+)?$/`, kept as its sign and digit
   * runs. `Number(value)` is read as the decimal these digits denote.
   */
  datatype Decimal = Decimal(negative: bool, whole: string, fraction: Option<string>)

  /** What a coerced form, search or path value can be: text, a number, a boolean, or an uploaded file. */
  datatype Item = Text(text: string) | Number(n: Decimal) | Bool(b: bool) | Upload(file: nat)

  predicate IsDigit(c: char)
  {
    '0' <= c <= '9'
  }

  /** `\d+`. */
  predicate Digits(s: string)
  {
    |s| > 0 && forall i :: 0 <= i < |s| ==> IsDigit(s[i])
  }

  predicate WellFormed(d: Decimal)
  {
    Digits(d.whole) && (d.fraction.Some? ==> Digits(d.fraction.value))
  }

  /** The text a decimal is written as. */
  function DecimalText(d: Decimal): (r: string)
    ensures |r| > 0 || d.whole == []
  {
    (if d.negative then "-" else "") + d.whole + (if d.fraction.Some? then "." + d.fraction.value else "")
  }

  /** `/^-?\d+(\.\d+)?$/.test(s)`, with the parts the match finds. */
  function ParseDecimal(s: string): (r: Option<Decimal>)
    ensures r.Some? ==> WellFormed(r.value)
  {
    if |s| > 0 && s[0] == '-' then ParseUnsigned(true, s[1..]) else ParseUnsigned(false, s)
  }

  /** The match after the optional sign: digits, optionally a point and more digits. */
  function ParseUnsigned(negative: bool, body: string): (r: Option<Decimal>)
    ensures r.Some? ==> WellFormed(r.value) && r.value.negative == negative
  {
    match IndexOf(body, '.')
    case None => if Digits(body) then Some(Decimal(negative, body, None)) else None
    case Some(k) =>
      if Digits(body[..k]) && Digits(body[k + 1..]) then Some(Decimal(negative, body[..k], Some(body[k + 1..])))
      else None
  }

  function Sign(negative: bool): string
  {
    if negative then "-" else ""
  }

  lemma ParseUnsignedSound(negative: bool, body: string)
    requires ParseUnsigned(negative, body).Some?
    ensures DecimalText(ParseUnsigned(negative, body).value) == Sign(negative) + body
  {
    match IndexOf(body, '.')
    case None =>
    case Some(k) =>
      assert body == body[..k] + "." + body[k + 1..];
  }

  /** A parsed decimal is written exactly as the text it was parsed from. */
  lemma ParseDecimalSound(s: string)
    requires ParseDecimal(s).Some?
    ensures DecimalText(ParseDecimal(s).value) == s
  {
    if |s| > 0 && s[0] == '-' {
      ParseUnsignedSound(true, s[1..]);
      assert s == "-" + s[1..];
    } else {
      ParseUnsignedSound(false, s);
    }
  }

  lemma DigitsHaveNoPoint(s: string)
    requires Digits(s)
    ensures '.' !in s && s[0] != '-'
  {
    assert IsDigit(s[0]);
    forall i | 0 <= i < |s|
      ensures s[i] != '.'
    {
      assert IsDigit(s[i]);
    }
  }

  lemma ParseUnsignedComplete(d: Decimal)
    requires WellFormed(d)
    ensures ParseUnsigned(d.negative, DecimalText(Decimal(false, d.whole, d.fraction))) == Some(d)
  {
    DigitsHaveNoPoint(d.whole);
    var body := DecimalText(Decimal(false, d.whole, d.fraction));
    match d.fraction
    case None =>
      assert body == d.whole;
    case Some(f) =>
      IndexOfFirst(d.whole, '.', f);
      assert body == d.whole + ['.'] + f;
      assert body[..|d.whole|] == d.whole && body[|d.whole| + 1..] == f;
  }

  /** Every well-formed decimal's text is accepted and read back as that decimal. */
  lemma ParseDecimalComplete(d: Decimal)
    requires WellFormed(d)
    ensures ParseDecimal(DecimalText(d)) == Some(d)
  {
    var body := DecimalText(Decimal(false, d.whole, d.fraction));
    ParseUnsignedComplete(d);
    DigitsHaveNoPoint(d.whole);
    assert body[0] == d.whole[0];
    if d.negative {
      assert DecimalText(d) == "-" + body;
      assert DecimalText(d)[1..] == body;
    } else {
      assert DecimalText(d) == body;
    }
  }

  /** The integer part as `Number` reads it: leading zeros dropped, down to the last digit. */
  function DropLeadingZeros(s: string): (r: string)
    ensures |r| <= |s| && s == Zeros(|s| - |r|) + r
    ensures |s| > 0 ==> |r| > 0
    ensures |r| > 1 ==> r[0] != '0'
    ensures Digits(s) ==> Digits(r)
    decreases |s|
  {
    if |s| > 1 && s[0] == '0' then
      var r := DropLeadingZeros(s[1..]);
      assert s == Zeros(|s| - |r|) + r by {
        assert s == ['0'] + s[1..];
        assert Zeros(|s| - |r|) == ['0'] + Zeros(|s| - 1 - |r|);
      }
      r
    else
      assert Zeros(0) == [];
      s
  }

  /** The fraction as `Number` reads it: trailing zeros dropped, possibly down to nothing. */
  function DropTrailingZeros(s: string): (r: string)
    ensures |r| <= |s| && r == s[..|r|]
    ensures |r| > 0 ==> r[|r| - 1] != '0'
    ensures Digits(s) && r != [] ==> Digits(r)
  {
    if |s| > 0 && s[|s| - 1] == '0' then DropTrailingZeros(s[..|s| - 1]) else s
  }

  /**
   * The decimal `String(Number(text))` and `JSON.stringify` print for a
   * text the numeric pattern accepts: no leading zero before another digit,
   * no trailing zero in the fraction, no empty fraction, and no sign on zero.
   */
  function Canonical(d: Decimal): Decimal
  {
    var whole := DropLeadingZeros(d.whole);
    var rest := if d.fraction.Some? then DropTrailingZeros(d.fraction.value) else "";
    var fraction := if rest == "" then None else Some(rest);
    Decimal(d.negative && !(whole == "0" && fraction.None?), whole, fraction)
  }

  /** The text a JavaScript number holding `d`'s value is printed as. */
  function NumberText(d: Decimal): string
  {
    DecimalText(Canonical(d))
  }

  /** The shape of every number text JavaScript prints in positional notation. */
  predicate IsCanonical(d: Decimal)
  {
    WellFormed(d) &&
    (|d.whole| > 1 ==> d.whole[0] != '0') &&
    (d.fraction.Some? ==> d.fraction.value[|d.fraction.value| - 1] != '0') &&
    (d.negative ==> d.whole != "0" || d.fraction.Some?)
  }

  /** `n` zero digits. */
  function Zeros(n: nat): (r: string)
    ensures |r| == n
  {
    seq(n, _ => '0')
  }

  /** The integer a run of decimal digits spells, most significant first. */
  function Magnitude(s: string): int
  {
    if s == [] then 0 else Magnitude(s[..|s| - 1]) * 10 + (s[|s| - 1] as int - '0' as int)
  }

  /** The digits of a decimal's value times `10^k`, for any `k` at least as long as the fraction. */
  function ScaledDigits(d: Decimal, k: nat): (r: string)
    requires d.fraction.Some? ==> |d.fraction.value| <= k
  {
    var f := if d.fraction.Some? then d.fraction.value else "";
    d.whole + (f + Zeros(k - |f|))
  }

  /**
   * The value of a decimal times `10^k`, an integer for every `k` at least
   * as long as the fraction: two decimals with equal scaled values for such
   * a `k` denote the same number.
   */
  function Scaled(d: Decimal, k: nat): int
    requires d.fraction.Some? ==> |d.fraction.value| <= k
  {
    if d.negative then -Magnitude(ScaledDigits(d, k)) else Magnitude(ScaledDigits(d, k))
  }

  /** A leading zero adds nothing to the value of a digit string. */
  lemma {:induction false} LeadingZeroValue(t: string)
    ensures Magnitude(['0'] + t) == Magnitude(t)
  {
    if t != [] {
      var t' := t[..|t| - 1];
      LeadingZeroValue(t');
      assert (['0'] + t)[..|t|] == ['0'] + t';
    }
  }

  /** Dropping leading zeros keeps the value of the digits they are followed by. */
  lemma DropLeadingZerosValue(s: string, rest: string)
    ensures Magnitude(DropLeadingZeros(s) + rest) == Magnitude(s + rest)
  {
    var r := DropLeadingZeros(s);
    var n := |s| - |r|;
    assert s + rest == Zeros(n) + (r + rest);
    ZerosPrefixValue(n, r + rest);
  }

  /** Zeros in front add nothing to the value of a digit string. */
  lemma {:induction false} ZerosPrefixValue(n: nat, t: string)
    ensures Magnitude(Zeros(n) + t) == Magnitude(t)
  {
    if n > 0 {
      ZerosPrefixValue(n - 1, t);
      LeadingZeroValue(Zeros(n - 1) + t);
      assert Zeros(n) + t == ['0'] + (Zeros(n - 1) + t) by {
        assert Zeros(n) == ['0'] + Zeros(n - 1);
      }
    } else {
      assert Zeros(n) + t == t;
    }
  }

  /** The trailing zeros dropped from a fraction put back give the fraction. */
  lemma {:induction false} DropTrailingZerosPadded(s: string)
    ensures DropTrailingZeros(s) + Zeros(|s| - |DropTrailingZeros(s)|) == s
  {
    if |s| > 0 && s[|s| - 1] == '0' {
      var s' := s[..|s| - 1];
      DropTrailingZerosPadded(s');
      var g := DropTrailingZeros(s');
      assert Zeros(|s| - |g|) == Zeros(|s'| - |g|) + ['0'];
      assert s == s' + ['0'];
    } else {
      assert Zeros(0) == [];
    }
  }

  /** A run of zeros has the value 0. */
  lemma {:induction false} ZerosValue(n: nat)
    ensures Magnitude(Zeros(n)) == 0
  {
    if n > 0 {
      ZerosValue(n - 1);
      assert Zeros(n)[..n - 1] == Zeros(n - 1);
    }
  }

  /** The canonical decimal is well formed and has the canonical shape. */
  lemma CanonicalShape(d: Decimal)
    requires WellFormed(d)
    ensures IsCanonical(Canonical(d))
  {
  }

  /** A canonical decimal is its own canonical form, so canonicalising twice is once. */
  lemma {:induction false} CanonicalFixed(d: Decimal)
    requires IsCanonical(d)
    ensures Canonical(d) == d
    ensures NumberText(d) == DecimalText(d)
  {
    assert DropLeadingZeros(d.whole) == d.whole;
    if d.fraction.Some? {
      var f := d.fraction.value;
      assert DropTrailingZeros(f) == f;
    }
  }

  lemma CanonicalIdempotent(d: Decimal)
    requires WellFormed(d)
    ensures Canonical(Canonical(d)) == Canonical(d)
    ensures NumberText(Canonical(d)) == NumberText(d)
  {
    CanonicalShape(d);
    CanonicalFixed(Canonical(d));
  }

  /** Canonicalising keeps the number: the scaled values agree for every large enough scale. */
  lemma CanonicalKeepsValue(d: Decimal, k: nat)
    requires d.fraction.Some? ==> |d.fraction.value| <= k
    ensures Scaled(Canonical(d), k) == Scaled(d, k)
  {
    var c := Canonical(d);
    var f := if d.fraction.Some? then d.fraction.value else "";
    var tail := f + Zeros(k - |f|);
    assert ScaledDigits(d, k) == d.whole + tail;
    CanonicalDigits(d, k);
    DropLeadingZerosValue(d.whole, tail);
    assert Magnitude(ScaledDigits(c, k)) == Magnitude(ScaledDigits(d, k));
    if d.negative && !c.negative {
      CanonicalZero(d, k);
    }
  }

  /** A decimal whose sign the canonical form drops denotes zero. */
  lemma CanonicalZero(d: Decimal, k: nat)
    requires d.fraction.Some? ==> |d.fraction.value| <= k
    requires Canonical(d).whole == "0" && Canonical(d).fraction.None?
    ensures Magnitude(ScaledDigits(Canonical(d), k)) == 0
  {
    assert ScaledDigits(Canonical(d), k) == Zeros(k + 1);
    ZerosValue(k + 1);
  }

  /** The scaled digits of the canonical form: the whole part without its leading zeros, then the same padded fraction. */
  lemma CanonicalDigits(d: Decimal, k: nat)
    requires d.fraction.Some? ==> |d.fraction.value| <= k
    ensures var f := if d.fraction.Some? then d.fraction.value else "";
      ScaledDigits(Canonical(d), k) == DropLeadingZeros(d.whole) + (f + Zeros(k - |f|))
  {
    var c := Canonical(d);
    var f := if d.fraction.Some? then d.fraction.value else "";
    var g := DropTrailingZeros(f);
    assert (if c.fraction.Some? then c.fraction.value else "") == g;
    PaddedFraction(f, k);
  }

  /** A fraction padded to `k` digits pads its zero-stripped form to the same digits. */
  lemma PaddedFraction(f: string, k: nat)
    requires |f| <= k
    ensures DropTrailingZeros(f) + Zeros(k - |DropTrailingZeros(f)|) == f + Zeros(k - |f|)
  {
    var g := DropTrailingZeros(f);
    DropTrailingZerosPadded(f);
    ZerosConcat(|f| - |g|, k - |f|);
  }

  lemma ZerosConcat(a: nat, b: nat)
    ensures Zeros(a) + Zeros(b) == Zeros(a + b)
  {
  }

  /** The printed text of a number is read back by the numeric pattern as its canonical decimal. */
  lemma NumberTextReadsBack(d: Decimal)
    requires WellFormed(d)
    ensures ParseDecimal(NumberText(d)) == Some(Canonical(d))
    ensures IsCanonical(Canonical(d))
  {
    CanonicalShape(d);
    ParseDecimalComplete(Canonical(d));
  }

  /** "007" prints as "7". */
  lemma LeadingZerosDropped()
    ensures NumberText(Decimal(false, "007", None)) == "7"
  {
    assert DropLeadingZeros("007") == "7" by {
      assert "007"[1..] == "07" && "07"[1..] == "7";
    }
  }

  /** "1.50" prints as "1.5". */
  lemma TrailingZerosDropped()
    ensures NumberText(Decimal(false, "1", Some("50"))) == "1.5"
  {
    assert DropTrailingZeros("50") == "5" by {
      assert "50"[..1] == "5";
    }
  }

  /** "-0" and "-0.00" print as "0". */
  lemma NegativeZeroUnsigned()
    ensures NumberText(Decimal(true, "0", None)) == "0"
    ensures NumberText(Decimal(true, "0", Some("00"))) == "0"
  {
    assert DropTrailingZeros("00") == "" by {
      assert "00"[..1] == "0" && "0"[..0] == "";
    }
  }

  /** `value.toLowerCase() === "true" || value.toLowerCase() === "false"`. */
  predicate BooleanText(s: string)
  {
    ToLower(s) == "true" || ToLower(s) == "false"
  }

  /** `processString(value)` (src/Model/Parser.ts): blank gives "", then numbers, then booleans. */
  function ProcessString(value: string): (r: Item)
    ensures !r.Upload?
  {
    if !TextIsDefined(value) then Text("")
    else match ParseDecimal(value)
      case Some(d) => Number(d)
      case None => if BooleanText(value) then Bool(ToLower(value) == "true") else Text(value)
  }

  /** `getProcessedValue(value)` of the oldest generation: the same without the blank guard. */
  function GetProcessedValue(value: string): (r: Item)
    ensures !r.Upload?
  {
    match ParseDecimal(value)
    case Some(d) => Number(d)
    case None => if BooleanText(value) then Bool(ToLower(value) == "true") else Text(value)
  }

  /**
   * The coercion, case by case and in both directions: a number exactly when
   * the numeric pattern matches (written as the input), a boolean exactly when
   * the lower-cased input is "true" or "false", "" for a blank input, and
   * otherwise the input itself.
   */
  lemma ProcessStringCases(value: string)
    ensures ProcessString(value).Number? <==> TextIsDefined(value) && ParseDecimal(value).Some?
    ensures ProcessString(value).Number? ==> DecimalText(ProcessString(value).n) == value
    ensures ProcessString(value).Bool? <==>
      TextIsDefined(value) && ParseDecimal(value).None? && BooleanText(value)
    ensures ProcessString(value).Bool? ==> (ProcessString(value).b <==> ToLower(value) == "true")
    ensures !TextIsDefined(value) ==> ProcessString(value) == Text("")
    ensures TextIsDefined(value) && ParseDecimal(value).None? && !BooleanText(value) ==>
      ProcessString(value) == Text(value)
  {
    if ProcessString(value).Number? {
      ParseDecimalSound(value);
    }
  }

  /** A numeric text is never blank, so both coercions agree on it. */
  lemma NumericIsDefined(value: string)
    requires ParseDecimal(value).Some?
    ensures TextIsDefined(value)
    ensures ProcessString(value) == GetProcessedValue(value)
  {
    var d := ParseDecimal(value).value;
    ParseDecimalSound(value);
    var i := if d.negative then 1 else 0;
    assert value[i] == d.whole[0];
    assert !IsSpace(value[i]);
    if Trim(value) == "" {
      TrimEmptyIffBlank(value);
    }
  }

  lemma BlankNotBoolean(value: string)
    requires Blank(value)
    ensures !BooleanText(value)
  {
    if |value| > 0 {
      assert IsSpace(value[0]);
      assert ToLower(value)[0] == value[0];
    }
  }

  /** The two coercions differ only on blank inputs, which the older one keeps as they are. */
  lemma CoercionsAgree(value: string)
    ensures TextIsDefined(value) ==> ProcessString(value) == GetProcessedValue(value)
    ensures !TextIsDefined(value) ==> GetProcessedValue(value) == Text(value)
  {
    if !TextIsDefined(value) && ParseDecimal(value).Some? {
      NumericIsDefined(value);
    }
    if !TextIsDefined(value) {
      TrimEmptyIffBlank(value);
      BlankNotBoolean(value);
    }
  }

  lemma ProcessNumberExample(s: string)
    requires s == "42"
    ensures ProcessString(s) == Number(Decimal(false, "42", None))
  {
    assert IndexOf(s, '.') == None;
    assert Digits(s);
    assert TextIsDefined(s) by { TrimNoSpaceEnds(s); }
  }

  lemma ProcessBooleanExample(s: string)
    requires s == "TRUE"
    ensures ProcessString(s) == Bool(true)
  {
    assert ToLower(s) == "true";
    assert TextIsDefined(s) by { TrimNoSpaceEnds(s); }
    assert !Digits(s) by { assert !IsDigit(s[0]); }
    assert IndexOf(s, '.') == None;
  }

  lemma NotDecimalExample(s: string)
    requires s == "42abc"
    ensures ParseDecimal(s) == None
  {
    assert IndexOf(s, '.') == None;
    assert !IsDigit(s[2]);
  }

  lemma NotBooleanExample(s: string)
    requires s == "42abc"
    ensures !BooleanText(s)
  {
    assert ToLower(s)[0] == '4';
  }

  /** "42abc" matches neither pattern and stays text. */
  lemma ProcessTextExample(s: string)
    requires s == "42abc"
    ensures ProcessString(s) == Text(s)
  {
    TrimNoSpaceEnds(s);
    NotDecimalExample(s);
    NotBooleanExample(s);
  }

  lemma ProcessBlankExample(s: string)
    requires s == "   "
    ensures ProcessString(s) == Text("")
  {
    TrimEmptyIffBlank(s);
  }
}

module Records {
  import opened Wrappers
  import opened OrderedMaps
  import opened Coercion

  /** A record entry: a single value, or the array repeats turned it into. */
  datatype Value = One(item: Item) | Many(items: seq<Item>)

  type Fields = OrderedMap<Value>

  /** The values recorded under a key, in the order they were added. */
  function Collected(v: Option<Value>): seq<Item>
  {
    match v
    case None => []
    case Some(One(x)) => [x]
    case Some(Many(xs)) => xs
  }

  function Lookup(fields: Fields, key: string): Option<Value>
  {
    if key in fields.items then Some(fields.items[key]) else None
  }

  /** The record after `objAppendEntry(data, key, value)`. */
  function Appended(fields: Fields, key: string, value: Item): (r: Fields)
    ensures Valid(fields) ==> Valid(r)
    ensures r.keys == InsertKey(fields.keys, key)
  {
    if key in fields.items then
      match fields.items[key]
      case One(x) => Put(fields, key, Many([x, value]))
      case Many(xs) => Put(fields, key, Many(xs + [value]))
    else Put(fields, key, One(value))
  }

  /**
   * An append adds the value after those already under the key: an absent
   * key gets the bare value, a single value becomes a two-element array, an
   * array grows by one. Every other key is untouched.
   */
  lemma AppendedCollects(fields: Fields, key: string, value: Item)
    ensures Collected(Lookup(Appended(fields, key, value), key)) == Collected(Lookup(fields, key)) + [value]
    ensures Lookup(fields, key).None? ==> Lookup(Appended(fields, key, value), key) == Some(One(value))
    ensures Lookup(fields, key).Some? && Lookup(fields, key).value.One? ==>
      Lookup(Appended(fields, key, value), key) == Some(Many([Lookup(fields, key).value.item, value]))
    ensures forall k :: k != key ==> Lookup(Appended(fields, key, value), k) == Lookup(fields, k)
  {
  }

  /** Appending each pair in turn. */
  function AppendAll(fields: Fields, pairs: seq<(string, Item)>): (r: Fields)
  {
    if pairs == [] then fields
    else Appended(AppendAll(fields, pairs[..|pairs| - 1]), pairs[|pairs| - 1].0, pairs[|pairs| - 1].1)
  }

  /** The values of the pairs with the given key, in order. */
  function ValuesFor(pairs: seq<(string, Item)>, key: string): (r: seq<Item>)
  {
    if pairs == [] then []
    else ValuesFor(pairs[..|pairs| - 1], key) + (if pairs[|pairs| - 1].0 == key then [pairs[|pairs| - 1].1] else [])
  }

  lemma ValuesForSnoc(init: seq<(string, Item)>, last: (string, Item), key: string)
    ensures ValuesFor(init + [last], key) == ValuesFor(init, key) + (if last.0 == key then [last.1] else [])
  {
    assert (init + [last])[..|init|] == init;
  }

  lemma CollectsStep(prev: Fields, before: seq<Item>, init: seq<(string, Item)>, last: (string, Item), key: string)
    requires Collected(Lookup(prev, key)) == before + ValuesFor(init, key)
    ensures Collected(Lookup(Appended(prev, last.0, last.1), key)) == before + ValuesFor(init + [last], key)
  {
    ValuesForSnoc(init, last, key);
    AppendedCollects(prev, last.0, last.1);
    var xs := ValuesFor(init, key);
    if last.0 == key {
      assert before + xs + [last.1] == before + (xs + [last.1]);
    }
  }

  /** Repeated appends keep every value, in order, under each key. */
  lemma {:induction false} AppendAllCollects(fields: Fields, pairs: seq<(string, Item)>, key: string)
    ensures Collected(Lookup(AppendAll(fields, pairs), key)) == Collected(Lookup(fields, key)) + ValuesFor(pairs, key)
  {
    if pairs != [] {
      var init, last := pairs[..|pairs| - 1], pairs[|pairs| - 1];
      assert pairs == init + [last];
      AppendAllCollects(fields, init, key);
      CollectsStep(AppendAll(fields, init), Collected(Lookup(fields, key)), init, last, key);
    }
  }

  /** A key with no pair keeps whatever it had. */
  lemma {:induction false} AppendAllOthers(fields: Fields, pairs: seq<(string, Item)>, key: string)
    requires ValuesFor(pairs, key) == []
    ensures Lookup(AppendAll(fields, pairs), key) == Lookup(fields, key)
  {
    if pairs != [] {
      AppendAllOthers(fields, pairs[..|pairs| - 1], key);
      AppendedCollects(AppendAll(fields, pairs[..|pairs| - 1]), pairs[|pairs| - 1].0, pairs[|pairs| - 1].1);
    }
  }

  /** The entry a key holds after exactly these values were appended to an absent key. */
  function FromCollected(xs: seq<Item>): (r: Option<Value>)
    ensures Collected(r) == xs
  {
    if xs == [] then None else if |xs| == 1 then Some(One(xs[0])) else Some(Many(xs))
  }

  lemma AppendedShape(fields: Fields, key: string, value: Item, xs: seq<Item>)
    requires Lookup(fields, key) == FromCollected(xs)
    ensures Lookup(Appended(fields, key, value), key) == FromCollected(xs + [value])
  {
    if xs == [] {
      assert xs + [value] == [value];
    } else if |xs| == 1 {
      assert xs + [value] == [xs[0], value];
    }
  }

  lemma ShapeStep(prev: Fields, init: seq<(string, Item)>, last: (string, Item), key: string)
    requires Lookup(prev, key) == FromCollected(ValuesFor(init, key))
    ensures Lookup(Appended(prev, last.0, last.1), key) == FromCollected(ValuesFor(init + [last], key))
  {
    ValuesForSnoc(init, last, key);
    if last.0 == key {
      AppendedShape(prev, key, last.1, ValuesFor(init, key));
    } else {
      AppendedCollects(prev, last.0, last.1);
      assert Lookup(Appended(prev, last.0, last.1), key) == Lookup(prev, key);
      assert ValuesFor(init + [last], key) == ValuesFor(init, key) + [];
      assert ValuesFor(init, key) + [] == ValuesFor(init, key);
    }
  }

  /**
   * Starting from a record without the key: no pair leaves it absent, one
   * pair gives the bare value, and n >= 2 pairs give the array of all n values.
   */
  lemma {:induction false} AppendAllShape(fields: Fields, pairs: seq<(string, Item)>, key: string)
    requires Lookup(fields, key).None?
    ensures Lookup(AppendAll(fields, pairs), key) == FromCollected(ValuesFor(pairs, key))
  {
    if pairs != [] {
      var init, last := pairs[..|pairs| - 1], pairs[|pairs| - 1];
      assert pairs == init + [last];
      AppendAllShape(fields, init, key);
      ShapeStep(AppendAll(fields, init), init, last, key);
    }
  }

  /** A record object that parsers fill in place. */
  class Record {
    var fields: Fields

    ghost predicate Valid()
      reads this
    {
      OrderedMaps.Valid(fields)
    }

    constructor()
      ensures Valid() && fields == EmptyMap()
    {
      fields := EmptyMap();
    }

    /** `data[key] = value`. */
    method Assign(key: string, value: Value)
      requires Valid()
      modifies this
      ensures Valid() && fields == Put(old(fields), key, value)
    {
      fields := Put(fields, key, value);
    }
  }

  /** `objAppendEntry(data, key, value)`: the record is changed in place. */
  method ObjAppendEntry(data: Record, key: string, value: Item)
    requires data.Valid()
    modifies data
    ensures data.Valid() && data.fields == Appended(old(data.fields), key, value)
  {
    if key in data.fields.items {
      var existing := data.fields.items[key];
      match existing
      case Many(xs) => data.Assign(key, Many(xs + [value]));
      case One(x) => data.Assign(key, Many([x, value]));
    } else {
      data.Assign(key, One(value));
    }
  }
}
