// The stylesheet builder of src/CSS/CSS.ts: rules written as records become
// CSS text. An object's entries are taken in insertion order, so a property
// list is a sequence of (key, value) pairs.

module Css {
  import opened Wrappers
  import opened Strings
  import Coercion

  /** A property value: undefined or null, a string, a number, or a nested object of further values. */
  datatype CssValue = Absent | Text(s: string) | Number(n: Coercion.Decimal) | Nested(entries: seq<(string, CssValue)>)

  type Properties = seq<(string, CssValue)>

  datatype MediaQuery = MediaQuery(condition: string, rules: Properties)

  /** A rule: its selector and properties, and the optional pseudo-classes, pseudo-elements, keyframes and media queries. */
  datatype CssRule = CssRule(
    selector: string,
    properties: Properties,
    mediaQueries: Option<seq<MediaQuery>>,
    pseudoClasses: Option<seq<(string, Option<Properties>)>>,
    pseudoElements: Option<seq<(string, Option<Properties>)>>,
    keyframes: Option<seq<(string, seq<(string, Properties)>)>>)

  /** The properties whose numbers take no unit. */
  const UnitlessProperties: seq<string> := [
    "opacity", "zIndex", "fontWeight", "flex", "flexGrow", "flexShrink", "order", "zoom",
    "animationIterationCount", "columnCount", "orphans", "widows", "lineHeight"]

  /** `isUnitlessProperty(property)`. */
  predicate IsUnitless(property: string)
  {
    property in UnitlessProperties
  }

  /** `.filter(Boolean)` on strings: the non-empty ones, in order. */
  function NonEmpty(parts: seq<string>): (r: seq<string>)
    ensures |r| <= |parts|
    ensures forall i :: 0 <= i < |r| ==> r[i] != ""
  {
    if parts == [] then []
    else NonEmpty(parts[..|parts| - 1]) + (if parts[|parts| - 1] != "" then [parts[|parts| - 1]] else [])
  }

  lemma NonEmptySnoc(parts: seq<string>, last: string)
    ensures last == "" ==> NonEmpty(parts + [last]) == NonEmpty(parts)
    ensures last != "" ==> NonEmpty(parts + [last]) == NonEmpty(parts) + [last]
  {
    assert (parts + [last])[..|parts|] == parts;
    assert NonEmpty(parts) + [] == NonEmpty(parts);
  }

  /** Filtering keeps every non-empty part and drops every empty one. */
  lemma {:induction false} NonEmptyKeeps(parts: seq<string>)
    ensures forall s :: s in NonEmpty(parts) <==> s in parts && s != ""
  {
    if parts != [] {
      NonEmptyKeeps(parts[..|parts| - 1]);
      assert parts == parts[..|parts| - 1] + [parts[|parts| - 1]];
    }
  }

  /**
   * `formatValue(key, value)`: nothing for undefined or null; a nested
   * object's non-empty formatted entries joined by spaces; a number with
   * "px" unless the property is unitless; anything else as its text.
   */
  function FormatValue(key: string, value: CssValue): string
    decreases value
  {
    match value
    case Absent => ""
    case Nested(entries) =>
      Join(NonEmpty(seq(|entries|, i requires 0 <= i < |entries| =>
        assert entries[i] in entries; FormatValue(entries[i].0, entries[i].1))), " ")
    case Number(n) => if IsUnitless(key) then Coercion.NumberText(n) else Coercion.NumberText(n) + "px"
    case Text(s) => s
  }

  /** The formatted entries of a nested value. */
  function FormatEntries(entries: seq<(string, CssValue)>): (r: seq<string>)
    ensures |r| == |entries|
    ensures forall i :: 0 <= i < |entries| ==> r[i] == FormatValue(entries[i].0, entries[i].1)
  {
    seq(|entries|, i requires 0 <= i < |entries| => FormatValue(entries[i].0, entries[i].1))
  }

  /** A nested value formats as its non-empty formatted entries joined by spaces. */
  lemma NestedUnfolds(key: string, entries: seq<(string, CssValue)>)
    ensures FormatValue(key, Nested(entries)) == Join(NonEmpty(FormatEntries(entries)), " ")
  {
    assert seq(|entries|, i requires 0 <= i < |entries| =>
      assert entries[i] in entries; FormatValue(entries[i].0, entries[i].1)) == FormatEntries(entries);
  }

  /** A nested value ignores undefined entries: adding one changes nothing. */
  lemma AbsentEntryIgnored(key: string, entries: seq<(string, CssValue)>, name: string)
    ensures FormatValue(key, Nested(entries + [(name, Absent)])) == FormatValue(key, Nested(entries))
  {
    var more := entries + [(name, Absent)];
    assert FormatEntries(more) == FormatEntries(entries) + [""];
    NonEmptySnoc(FormatEntries(entries), "");
    NestedUnfolds(key, more);
    NestedUnfolds(key, entries);
  }

  /** A nested value adds its next non-empty entry after a space (or alone, when it is the first). */
  lemma NestedEntryAppended(key: string, entries: seq<(string, CssValue)>, name: string, v: CssValue)
    requires FormatValue(name, v) != ""
    ensures var before := NonEmpty(FormatEntries(entries));
      FormatValue(key, Nested(entries + [(name, v)])) ==
        if before == [] then FormatValue(name, v) else FormatValue(key, Nested(entries)) + " " + FormatValue(name, v)
  {
    var more := entries + [(name, v)];
    assert FormatEntries(more) == FormatEntries(entries) + [FormatValue(name, v)];
    NonEmptySnoc(FormatEntries(entries), FormatValue(name, v));
    NestedUnfolds(key, more);
    NestedUnfolds(key, entries);
    var before := NonEmpty(FormatEntries(entries));
    if before != [] {
      JoinAppend(before, FormatValue(name, v), " ");
    } else {
      assert before + [FormatValue(name, v)] == [FormatValue(name, v)];
    }
  }

  /** Numbers get "px" on every property but the unitless ones. */
  lemma NumberUnits(key: string, n: Coercion.Decimal)
    ensures !IsUnitless(key) ==> FormatValue(key, Number(n)) == Coercion.NumberText(n) + "px"
    ensures IsUnitless(key) ==> FormatValue(key, Number(n)) == Coercion.NumberText(n)
    ensures FormatValue("width", Number(n)) == Coercion.NumberText(n) + "px"
    ensures FormatValue("opacity", Number(n)) == Coercion.NumberText(n)
  {
    assert UnitlessProperties[0] == "opacity";
    assert !IsUnitless("width") by {
      forall i | 0 <= i < |UnitlessProperties|
        ensures UnitlessProperties[i] != "width"
      {
        assert |UnitlessProperties[i]| != 5 || UnitlessProperties[i][0] != 'w';
      }
    }
  }

  /** `key.replace(/([A-Z])/g, "-$1")`: a dash before every capital letter. */
  function Dashed(key: string): (r: string)
    ensures |r| >= |key|
  {
    if key == [] then []
    else
      var c := key[|key| - 1];
      Dashed(key[..|key| - 1]) + (if 'A' <= c <= 'Z' then ['-', c] else [c])
  }

  /** The CSS name of a camel-case key. */
  function Kebab(key: string): (r: string)
    ensures forall i :: 0 <= i < |r| ==> !('A' <= r[i] <= 'Z')
  {
    ToLower(Dashed(key))
  }

  predicate NoCapitals(s: string)
  {
    forall i :: 0 <= i < |s| ==> !('A' <= s[i] <= 'Z')
  }

  /** A key without capital letters is its own CSS name. */
  lemma KebabPlain(key: string)
    requires NoCapitals(key)
    ensures Kebab(key) == key
  {
    DashedPlain(key);
  }

  lemma {:induction false} DashedPlain(key: string)
    requires NoCapitals(key)
    ensures Dashed(key) == key
  {
    if key != [] {
      DashedPlain(key[..|key| - 1]);
      assert key == key[..|key| - 1] + [key[|key| - 1]];
    }
  }

  /** Each capital letter becomes a dash and its lower-case letter. */
  lemma {:induction false} KebabCapital(key: string, c: char)
    requires 'A' <= c <= 'Z'
    ensures Kebab(key + [c]) == Kebab(key) + ['-', LowerChar(c)]
  {
    assert (key + [c])[..|key|] == key;
  }

  /** Every other character is kept as it is. */
  lemma {:induction false} KebabOther(key: string, c: char)
    requires !('A' <= c <= 'Z')
    ensures Kebab(key + [c]) == Kebab(key) + [c]
  {
    assert (key + [c])[..|key|] == key;
  }

  /** One `  key: value;` line of `propertiesToString`, or nothing when the value formats empty. */
  function Declaration(key: string, value: CssValue): string
  {
    if value.Absent? then ""
    else
      var v := FormatValue(key, value);
      if v != "" then "  " + Kebab(key) + ": " + v + ";" else ""
  }

  /** A property is declared exactly when its value formats to something. */
  lemma DeclaredIffFormatted(key: string, value: CssValue)
    ensures Declaration(key, value) != "" <==> FormatValue(key, value) != ""
    ensures Declaration(key, value) != "" ==> Declaration(key, value) == "  " + Kebab(key) + ": " + FormatValue(key, value) + ";"
  {
  }

  function Declarations(props: Properties): (r: seq<string>)
  {
    NonEmpty(seq(|props|, i requires 0 <= i < |props| => Declaration(props[i].0, props[i].1)))
  }

  /** `propertiesToString(properties)`: the declarations, one per line. */
  function PropertiesToString(props: Properties): string
  {
    Join(Declarations(props), "\n")
  }

  /** One more property adds its line at the end, or nothing when its value formats empty. */
  lemma PropertiesSnoc(props: Properties, key: string, value: CssValue)
    ensures FormatValue(key, value) == "" ==> PropertiesToString(props + [(key, value)]) == PropertiesToString(props)
    ensures FormatValue(key, value) != "" ==>
      PropertiesToString(props + [(key, value)]) ==
        if Declarations(props) == [] then Declaration(key, value)
        else PropertiesToString(props) + "\n" + Declaration(key, value)
  {
    var lines := seq(|props|, i requires 0 <= i < |props| => Declaration(props[i].0, props[i].1));
    var more := props + [(key, value)];
    var d := Declaration(key, value);
    assert seq(|more|, i requires 0 <= i < |more| => Declaration(more[i].0, more[i].1)) == lines + [d];
    assert Declarations(more) == NonEmpty(lines + [d]);
    assert Declarations(props) == NonEmpty(lines);
    NonEmptySnoc(lines, d);
    DeclaredIffFormatted(key, value);
    if d != "" {
      if Declarations(props) != [] {
        JoinAppend(Declarations(props), d, "\n");
      } else {
        assert Declarations(more) == [d];
      }
    }
  }

  /** `.replace(/^/gm, "  ")`: two spaces at the start of the text and after every line feed. */
  function Indent(s: string): string
  {
    "  " + IndentRest(s)
  }

  function IndentRest(s: string): (r: string)
  {
    if s == [] then [] else [s[0]] + (if s[0] == '\n' then "  " else "") + IndentRest(s[1..])
  }

  /** Each line behind two spaces. */
  function IndentEach(lines: seq<string>): (r: seq<string>)
    ensures |r| == |lines|
  {
    if lines == [] then [] else ["  " + lines[0]] + IndentEach(lines[1..])
  }

  lemma {:induction false} IndentRestAppend(a: string, b: string)
    ensures IndentRest(a + b) == IndentRest(a) + IndentRest(b)
  {
    if a != [] {
      assert (a + b)[1..] == a[1..] + b;
      IndentRestAppend(a[1..], b);
    } else {
      assert a + b == b;
    }
  }

  lemma {:induction false} IndentRestPlain(line: string)
    requires '\n' !in line
    ensures IndentRest(line) == line
  {
    if line != [] {
      assert line[1..][..] == line[1..];
      IndentRestPlain(line[1..]);
    }
  }

  /** A line without line feeds, a line feed, then the rest: the line and the rest are each indented. */
  lemma IndentLineThenRest(line: string, rest: string)
    requires '\n' !in line
    ensures Indent(line + "\n" + rest) == ("  " + line) + "\n" + Indent(rest)
  {
    var tail := ['\n'] + rest;
    assert tail[0] == '\n' && tail[1..] == rest;
    assert IndentRest(tail) == ['\n'] + "  " + IndentRest(rest);
    IndentRestPlain(line);
    IndentRestAppend(line, tail);
    assert line + "\n" + rest == line + tail;
  }

  /** Indenting lines joined by line feeds puts two spaces before each of them. */
  lemma {:induction false} IndentJoin(lines: seq<string>)
    requires |lines| >= 1
    requires forall k :: 0 <= k < |lines| ==> '\n' !in lines[k]
    ensures Indent(Join(lines, "\n")) == Join(IndentEach(lines), "\n")
  {
    if |lines| == 1 {
      IndentRestPlain(lines[0]);
    } else {
      var rest := Join(lines[1..], "\n");
      IndentJoin(lines[1..]);
      IndentLineThenRest(lines[0], rest);
      var each := IndentEach(lines);
      assert each[0] == "  " + lines[0] && each[1..] == IndentEach(lines[1..]);
    }
  }

  /** `.replace(/^/gm, "  ")` puts two spaces before every line of the text. */
  lemma IndentLines(s: string)
    ensures Indent(s) == Join(IndentEach(Split(s, '\n')), "\n")
  {
    JoinSplit(s, '\n');
    IndentJoin(Split(s, '\n'));
  }

  /** The lines of the steps of one `@keyframes` block. */
  function StepParts(steps: seq<(string, Properties)>): seq<string>
  {
    if steps == [] then []
    else
      var (step, props) := steps[|steps| - 1];
      StepParts(steps[..|steps| - 1]) + ["  " + step + " {", PropertiesToString(props), "  }"]
  }

  function KeyframeParts(keyframes: seq<(string, seq<(string, Properties)>)>): seq<string>
  {
    if keyframes == [] then []
    else
      var (name, steps) := keyframes[|keyframes| - 1];
      KeyframeParts(keyframes[..|keyframes| - 1]) + KeyframeBlock(name, steps)
  }

  /** One `@keyframes` block: its name line, its steps and the closing brace. */
  function KeyframeBlock(name: string, steps: seq<(string, Properties)>): seq<string>
  {
    ["@keyframes " + name + " {"] + StepParts(steps) + ["}"]
  }

  /** The blocks of the pseudo-classes (`sep` ":") or pseudo-elements (`sep` "::") that have properties. */
  function PseudoParts(selector: string, sep: string, pseudos: seq<(string, Option<Properties>)>): seq<string>
  {
    if pseudos == [] then []
    else
      var (name, props) := pseudos[|pseudos| - 1];
      PseudoParts(selector, sep, pseudos[..|pseudos| - 1]) + PseudoBlock(selector, sep, name, props)
  }

  /** The block of one pseudo-class or pseudo-element; nothing when it has no properties. */
  function PseudoBlock(selector: string, sep: string, name: string, props: Option<Properties>): seq<string>
  {
    if props.Some? && |props.value| > 0 then [selector + sep + name + " {", PropertiesToString(props.value), "}"] else []
  }

  function MediaParts(selector: string, queries: seq<MediaQuery>): seq<string>
  {
    if queries == [] then []
    else
      var q := queries[|queries| - 1];
      MediaParts(selector, queries[..|queries| - 1]) + MediaBlock(selector, queries[|queries| - 1])
  }

  /** The block of one media query: the selector's properties, indented, inside `@media`. */
  function MediaBlock(selector: string, q: MediaQuery): seq<string>
  {
    ["@media " + q.condition + " {", "  " + selector + " {", Indent(PropertiesToString(q.rules)), "  }", "}"]
  }

  /** The lines of `ruleToString`: keyframes, the main block, pseudo-classes, pseudo-elements, media queries. */
  function RuleParts(rule: CssRule): seq<string>
  {
    (if rule.keyframes.Some? then KeyframeParts(rule.keyframes.value) else []) +
    [rule.selector + " {", PropertiesToString(rule.properties), "}"] +
    (if rule.pseudoClasses.Some? then PseudoParts(rule.selector, ":", rule.pseudoClasses.value) else []) +
    (if rule.pseudoElements.Some? then PseudoParts(rule.selector, "::", rule.pseudoElements.value) else []) +
    (if rule.mediaQueries.Some? then MediaParts(rule.selector, rule.mediaQueries.value) else [])
  }

  function RuleText(rule: CssRule): string
  {
    Join(RuleParts(rule), "\n")
  }

  /** A pseudo-class or pseudo-element that is undefined or empty adds no block. */
  lemma EmptyPseudoSkipped(selector: string, sep: string, pseudos: seq<(string, Option<Properties>)>, name: string, props: Option<Properties>)
    requires props.None? || props.value == []
    ensures PseudoParts(selector, sep, pseudos + [(name, props)]) == PseudoParts(selector, sep, pseudos)
  {
    assert (pseudos + [(name, props)])[..|pseudos|] == pseudos;
  }

  /** A rule with only a selector and properties is one block. */
  lemma PlainRule(selector: string, props: Properties)
    ensures RuleText(CssRule(selector, props, None, None, None, None)) ==
      selector + " {" + "\n" + PropertiesToString(props) + "\n" + "}"
  {
    var open := selector + " {";
    var body := PropertiesToString(props);
    var parts := [open, body, "}"];
    var rule := CssRule(selector, props, None, None, None, None);
    assert RuleParts(rule) == [] + parts + [] + [] + [];
    assert [] + parts + [] + [] + [] == parts;
    assert RuleText(rule) == Join(parts, "\n");
    assert parts[1..] == [body, "}"];
    assert parts[1..][1..] == ["}"];
    assert Join(parts[1..], "\n") == body + "\n" + "}";
  }

  /** The main block comes right after the keyframes, whatever else the rule has. */
  lemma MainBlockAfterKeyframes(rule: CssRule)
    ensures var k := if rule.keyframes.Some? then KeyframeParts(rule.keyframes.value) else [];
      |RuleParts(rule)| >= |k| + 3 && RuleParts(rule)[..|k|] == k &&
      RuleParts(rule)[|k|] == rule.selector + " {" &&
      RuleParts(rule)[|k| + 1] == PropertiesToString(rule.properties) &&
      RuleParts(rule)[|k| + 2] == "}"
  {
    var k := if rule.keyframes.Some? then KeyframeParts(rule.keyframes.value) else [];
    var c := if rule.pseudoClasses.Some? then PseudoParts(rule.selector, ":", rule.pseudoClasses.value) else [];
    var e := if rule.pseudoElements.Some? then PseudoParts(rule.selector, "::", rule.pseudoElements.value) else [];
    var m := if rule.mediaQueries.Some? then MediaParts(rule.selector, rule.mediaQueries.value) else [];
    var main := [rule.selector + " {", PropertiesToString(rule.properties), "}"];
    assert RuleParts(rule) == k + main + c + e + m;
    HeadOfFive(k, main, c, e, m);
  }

  /** The first two of five joined sequences, read back by position. */
  lemma HeadOfFive(k: seq<string>, main: seq<string>, c: seq<string>, e: seq<string>, m: seq<string>)
    requires |main| == 3
    ensures var w := k + main + c + e + m;
      |w| >= |k| + 3 && w[..|k|] == k && w[|k|] == main[0] && w[|k| + 1] == main[1] && w[|k| + 2] == main[2]
  {
    var w := k + main + c + e + m;
    JoinedAfter(k + main, c, e);
    JoinedAfter(k + main, c + e, m);
    assert w == k + main + (c + e + m);
  }

  /** The steps of one keyframes block, pushed in order. */
  method PushSteps(parts: seq<string>, steps: seq<(string, Properties)>) returns (r: seq<string>)
    ensures r == parts + StepParts(steps)
  {
    r := parts;
    for i := 0 to |steps|
      invariant r == parts + StepParts(steps[..i])
    {
      var (step, props) := steps[i];
      assert steps[..i + 1][..i] == steps[..i];
      r := r + ["  " + step + " {"];
      r := r + [PropertiesToString(props)];
      r := r + ["  }"];
    }
    assert steps[..|steps|] == steps;
  }

  method PushKeyframes(parts: seq<string>, keyframes: seq<(string, seq<(string, Properties)>)>) returns (r: seq<string>)
    ensures r == parts + KeyframeParts(keyframes)
  {
    r := parts;
    for i := 0 to |keyframes|
      invariant r == parts + KeyframeParts(keyframes[..i])
    {
      var (name, steps) := keyframes[i];
      assert keyframes[..i + 1][..i] == keyframes[..i];
      ghost var before := KeyframeParts(keyframes[..i]);
      r := PushKeyframe(r, name, steps);
      JoinedAfter(parts, before, KeyframeBlock(name, steps));
    }
    assert keyframes[..|keyframes|] == keyframes;
  }

  /** One `@keyframes` block appended. */
  method PushKeyframe(parts: seq<string>, name: string, steps: seq<(string, Properties)>) returns (r: seq<string>)
    ensures r == parts + KeyframeBlock(name, steps)
  {
    var opening := ["@keyframes " + name + " {"];
    r := parts + opening;
    r := PushSteps(r, steps);
    r := r + ["}"];
    Regrouped(parts, opening, StepParts(steps), ["}"]);
  }

  /** Four pushes in a row are one push of the block they make. */
  lemma Regrouped(a: seq<string>, b: seq<string>, c: seq<string>, d: seq<string>)
    ensures a + b + c + d == a + (b + c + d)
  {
  }

  /** Appending to a sequence already extended. */
  lemma JoinedAfter(a: seq<string>, b: seq<string>, c: seq<string>)
    ensures a + b + c == a + (b + c)
  {
  }

  method PushPseudos(parts: seq<string>, selector: string, sep: string, pseudos: seq<(string, Option<Properties>)>) returns (r: seq<string>)
    ensures r == parts + PseudoParts(selector, sep, pseudos)
  {
    r := parts;
    for i := 0 to |pseudos|
      invariant r == parts + PseudoParts(selector, sep, pseudos[..i])
    {
      var (name, props) := pseudos[i];
      assert pseudos[..i + 1][..i] == pseudos[..i];
      ghost var before := PseudoParts(selector, sep, pseudos[..i]);
      if props.Some? && |props.value| > 0 {
        r := r + [selector + sep + name + " {", PropertiesToString(props.value), "}"];
      }
      assert r == parts + before + PseudoBlock(selector, sep, name, props);
      JoinedAfter(parts, before, PseudoBlock(selector, sep, name, props));
    }
    assert pseudos[..|pseudos|] == pseudos;
  }

  method PushMedia(parts: seq<string>, selector: string, queries: seq<MediaQuery>) returns (r: seq<string>)
    ensures r == parts + MediaParts(selector, queries)
  {
    r := parts;
    for i := 0 to |queries|
      invariant r == parts + MediaParts(selector, queries[..i])
    {
      var q := queries[i];
      assert queries[..i + 1][..i] == queries[..i];
      ghost var before := MediaParts(selector, queries[..i]);
      r := r + ["@media " + q.condition + " {", "  " + selector + " {", Indent(PropertiesToString(q.rules)), "  }", "}"];
      assert r == parts + before + MediaBlock(selector, q);
      JoinedAfter(parts, before, MediaBlock(selector, q));
    }
    assert queries[..|queries|] == queries;
  }

  /** `ruleToString(rule)`: the parts pushed in order, joined by line feeds. */
  method RuleToString(rule: CssRule) returns (text: string)
    ensures text == RuleText(rule)
  {
    var parts: seq<string> := [];
    if rule.keyframes.Some? {
      parts := PushKeyframes(parts, rule.keyframes.value);
    }
    ghost var k := parts;
    assert k == if rule.keyframes.Some? then KeyframeParts(rule.keyframes.value) else [];
    parts := parts + [rule.selector + " {"];
    parts := parts + [PropertiesToString(rule.properties)];
    parts := parts + ["}"];
    assert parts == k + [rule.selector + " {", PropertiesToString(rule.properties), "}"];
    ghost var main := parts;
    if rule.pseudoClasses.Some? {
      parts := PushPseudos(parts, rule.selector, ":", rule.pseudoClasses.value);
    }
    assert parts == main + (if rule.pseudoClasses.Some? then PseudoParts(rule.selector, ":", rule.pseudoClasses.value) else []);
    ghost var classes := parts;
    if rule.pseudoElements.Some? {
      parts := PushPseudos(parts, rule.selector, "::", rule.pseudoElements.value);
    }
    assert parts == classes + (if rule.pseudoElements.Some? then PseudoParts(rule.selector, "::", rule.pseudoElements.value) else []);
    ghost var elements := parts;
    if rule.mediaQueries.Some? {
      parts := PushMedia(parts, rule.selector, rule.mediaQueries.value);
    }
    assert parts == elements + (if rule.mediaQueries.Some? then MediaParts(rule.selector, rule.mediaQueries.value) else []);
    text := Join(parts, "\n");
  }

  /** `build(rules)`: each rule's text, separated by a blank line. */
  function Build(rules: seq<CssRule>): string
  {
    Join(seq(|rules|, i requires 0 <= i < |rules| => RuleText(rules[i])), "\n\n")
  }

  /** One more rule goes after a blank line. */
  lemma BuildSnoc(rules: seq<CssRule>, rule: CssRule)
    ensures Build(rules + [rule]) == if rules == [] then RuleText(rule) else Build(rules) + "\n\n" + RuleText(rule)
  {
    var texts := seq(|rules|, i requires 0 <= i < |rules| => RuleText(rules[i]));
    var more := rules + [rule];
    assert seq(|more|, i requires 0 <= i < |more| => RuleText(more[i])) == texts + [RuleText(rule)];
    if rules != [] {
      JoinAppend(texts, RuleText(rule), "\n\n");
    }
  }
}
