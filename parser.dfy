// The request parsers of the three generations: schema validation and its
// 422 message (src/Model/Parser.ts, src/modules/Parser/Parser.ts), the
// extraction of search, route parameters and form bodies into records, and
// the body-dispatch rules, including those of the oldest context class
// (src/lib/Context/__Coreum_Context.ts).

module SchemaIssues {
  import opened Wrappers
  import opened Strings

  /** A segment of an issue path: an object `{ key }` or a bare property key. */
  datatype PathSegment = KeySeg(key: string) | PlainSeg(text: string)

  datatype Issue = Issue(message: string, path: Option<seq<PathSegment>>)

  /** `String(segment.key)` for an object segment, `String(segment)` otherwise. */
  function SegmentText(s: PathSegment): string
  {
    match s
    case KeySeg(k) => k
    case PlainSeg(t) => t
  }

  function PathText(path: seq<PathSegment>): string
  {
    Join(seq(|path|, i requires 0 <= i < |path| => SegmentText(path[i])), ".")
  }

  /** One issue's line: the bare message without a path, else "a.b.c: message". */
  function IssueLine(issue: Issue): string
  {
    if issue.path.None? || |issue.path.value| == 0 then issue.message
    else PathText(issue.path.value) + ": " + issue.message
  }

  function Lines(issues: seq<Issue>): (r: seq<string>)
    ensures |r| == |issues|
  {
    seq(|issues|, i requires 0 <= i < |issues| => IssueLine(issues[i]))
  }

  /** `issuesToErrorMessage`: "" for no issues, else the issue lines joined by newlines. */
  function IssuesToErrorMessage(issues: seq<Issue>): (r: string)
    ensures |issues| == 0 ==> r == ""
  {
    if |issues| == 0 then "" else Join(Lines(issues), "\n")
  }

  /** The message splits back into exactly one line per issue, in order, when no line holds a newline. */
  lemma MessageHasOneLinePerIssue(issues: seq<Issue>)
    requires |issues| >= 1
    requires forall i :: 0 <= i < |issues| ==> '\n' !in IssueLine(issues[i])
    ensures Split(IssuesToErrorMessage(issues), '\n') == Lines(issues)
    ensures |Split(IssuesToErrorMessage(issues), '\n')| == |issues|
  {
    SplitJoin(Lines(issues), '\n');
  }

  lemma {:induction false} JoinAvoids(parts: seq<string>, sep: string, c: char)
    requires c !in sep
    requires forall i :: 0 <= i < |parts| ==> c !in parts[i]
    ensures c !in Join(parts, sep)
  {
    if |parts| > 1 {
      JoinAvoids(parts[1..], sep, c);
    }
  }

  /**
   * A line with a path reads back: the text before the first ':' is the
   * dotted path, and after it come a space and the message, provided no
   * path segment holds a ':'.
   */
  lemma KeyedLineReadsBack(issue: Issue)
    requires issue.path.Some? && |issue.path.value| > 0
    requires forall i :: 0 <= i < |issue.path.value| ==> ':' !in SegmentText(issue.path.value[i])
    ensures BeforeMark(':', IssueLine(issue)) == PathText(issue.path.value)
    ensures AfterMark(':', IssueLine(issue)) == " " + issue.message
  {
    var path := issue.path.value;
    var texts := seq(|path|, i requires 0 <= i < |path| => SegmentText(path[i]));
    JoinAvoids(texts, ".", ':');
    assert IssueLine(issue) == PathText(path) + [':'] + (" " + issue.message);
    MarkSides(PathText(path), ':', " " + issue.message);
  }

  /** An issue without a path contributes its bare message. */
  lemma UnkeyedLineIsMessage(issue: Issue)
    requires issue.path.None? || issue.path.value == []
    ensures IssueLine(issue) == issue.message
    ensures IssuesToErrorMessage([issue]) == issue.message
  {
  }
}

module Parsing {
  import opened Wrappers
  import opened Strings
  import opened SchemaIssues
  import opened HttpErrors
  import Json
  import Coercion
  import Records
  import OrderedMaps
  import HttpTables

  /** What a parser produces and a schema receives: a record, a single coerced value, or a JSON document. */
  datatype Data =
    | Object(fields: Records.Fields)
    | Scalar(item: Coercion.Item)
    | Document(json: Json.Json)

  /** `{}`. */
  function Empty(): (d: Data)
    ensures d.Object? && d.fields.keys == [] && OrderedMaps.Valid(d.fields)
  {
    Object(OrderedMaps.EmptyMap())
  }

  /** A Standard Schema result: the (possibly transformed) value, or a list of issues. */
  datatype Validation = Value(v: Data) | Issues(issues: seq<Issue>)

  type Validator = Data -> Validation

  /** A schema of the modules generation: its validator and the vendor that made it ("arktype", "zod"). */
  datatype SchemaData = SchemaData(vendor: string, validate: Validator)

  /** The error both parsers throw on issues: 422 with the formatted message. */
  function Rejection(issues: seq<Issue>): (e: Thrown)
    ensures e.Http? && e.error.status == HttpTables.UNPROCESSABLE_ENTITY
    ensures e.error.message == IssuesToErrorMessage(issues)
  {
    Http(UnprocessableEntity(Some(IssuesToErrorMessage(issues))))
  }

  /**
   * `Parser.parse(data, validate)`: without a validator the data passes
   * unchanged; with one, the validated value, or a 422 whenever the result
   * carries an issue list.
   */
  function Parse(data: Data, validate: Option<Validator>): (r: Outcome<Data>)
    ensures validate.None? ==> r == Ok(data)
    ensures r.Throw? <==> validate.Some? && validate.value(data).Issues?
    ensures r.Throw? ==> r.err == Rejection(validate.value(data).issues)
    ensures r.Ok? && validate.Some? ==> validate.value(data) == Value(r.value)
  {
    match validate
    case None => Ok(data)
    case Some(f) =>
      match f(data)
      case Issues(issues) => Throw(Rejection(issues))
      case Value(v) => Ok(v)
  }

  /** An empty issue list is still a rejection, with the empty message. */
  lemma EmptyIssuesStillReject(data: Data, f: Validator)
    requires f(data) == Issues([])
    ensures Parse(data, Some(f)) == Throw(Http(HttpError("", 422, None)))
  {
  }

  /** Whatever the parser throws is an HttpError with status 422. */
  lemma ParseOnlyThrows422(data: Data, validate: Option<Validator>)
    ensures Parse(data, validate).Throw? ==>
      Parse(data, validate).err.Http? && StatusOf(Parse(data, validate).err) == 422
  {
  }

  /** `getParserVendor(schema)`. */
  function GetParserVendor(schema: SchemaData): (vendor: string)
    ensures vendor == schema.vendor
  {
    schema.vendor
  }

  /**
   * `parseWithSchema(kind, data)` of the oldest context, through
   * `__Coreum_parse`: the schema stored for the kind validates the data, and
   * a rejection is a plain `Error` (no HTTP status) whose message names the
   * kind ("unprocessable.body", ".search", ".params").
   */
  function ParseWithSchema(kind: string, data: Data, schema: Option<Validator>): (r: Outcome<Data>)
    ensures schema.None? ==> r == Ok(data)
    ensures r.Throw? <==> schema.Some? && schema.value(data).Issues?
    ensures r.Throw? ==> r.err == Failure("unprocessable." + kind)
    ensures r.Ok? && schema.Some? ==> schema.value(data) == Value(r.value)
  {
    match schema
    case None => Ok(data)
    case Some(f) =>
      match f(data)
      case Issues(_) => Throw(Failure("unprocessable." + kind))
      case Value(v) => Ok(v)
  }

  /** Both validation paths accept and reject the same data; only what a rejection throws differs. */
  lemma ValidationPathsAgree(kind: string, data: Data, f: Validator)
    ensures Parse(data, Some(f)).Ok? <==> ParseWithSchema(kind, data, Some(f)).Ok?
    ensures Parse(data, Some(f)).Ok? ==> Parse(data, Some(f)) == ParseWithSchema(kind, data, Some(f))
  {
  }
}

module Extraction {
  import opened Wrappers
  import opened Strings
  import opened OrderedMaps
  import opened Coercion
  import opened Records
  import UriComponent

  type Coerce = string -> Item

  /** The record after `data[key] = coerce(value)` for each pair in turn. */
  function LastWins(pairs: seq<(string, string)>, coerce: Coerce): (r: Fields)
    ensures OrderedMaps.Valid(r)
  {
    if pairs == [] then EmptyMap()
    else
      var last := pairs[|pairs| - 1];
      Put(LastWins(pairs[..|pairs| - 1], coerce), last.0, One(coerce(last.1)))
  }

  /** The value of the last pair with the key, if any. */
  function LastValue(pairs: seq<(string, string)>, key: string): Option<string>
  {
    if pairs == [] then None
    else if pairs[|pairs| - 1].0 == key then Some(pairs[|pairs| - 1].1)
    else LastValue(pairs[..|pairs| - 1], key)
  }

  /** A key maps to the coerced value of its last pair, and a key without pairs is absent. */
  lemma {:induction false} LastWinsLookup(pairs: seq<(string, string)>, coerce: Coerce, key: string)
    ensures Lookup(LastWins(pairs, coerce), key) ==
      match LastValue(pairs, key)
      case None => None
      case Some(v) => Some(One(coerce(v)))
  {
    if pairs != [] {
      LastWinsLookup(pairs[..|pairs| - 1], coerce, key);
    }
  }

  lemma RepeatedKeyKeepsLast(pairs: seq<(string, string)>, a: string, b: string)
    requires pairs == [("n", a), ("n", b)]
    ensures Lookup(LastWins(pairs, ProcessString), "n") == Some(One(ProcessString(b)))
  {
    assert pairs[..1] == [("n", a)];
    assert pairs[..1][..0] == [];
  }

  /** `for (const [key, value] of searchParams) data[key] = coerce(value)`. */
  method AssignEach(pairs: seq<(string, string)>, coerce: Coerce) returns (data: Record)
    ensures fresh(data) && data.Valid()
    ensures data.fields == LastWins(pairs, coerce)
  {
    data := new Record();
    var i := 0;
    while i < |pairs|
      invariant 0 <= i <= |pairs|
      invariant data.Valid() && data.fields == LastWins(pairs[..i], coerce)
    {
      TakeOneMore(pairs, i);
      data.Assign(pairs[i].0, One(coerce(pairs[i].1)));
      assert pairs[..i + 1][..i] == pairs[..i];
      i := i + 1;
    }
    assert pairs[..i] == pairs;
  }

  /** Each value coerced, key by key. */
  function Coerced(pairs: seq<(string, string)>, coerce: Coerce): (r: seq<(string, Item)>)
    ensures |r| == |pairs|
    ensures forall i :: 0 <= i < |r| ==> r[i] == (pairs[i].0, coerce(pairs[i].1))
  {
    seq(|pairs|, i requires 0 <= i < |pairs| => (pairs[i].0, coerce(pairs[i].1)))
  }

  /** `for (const [key, value] of pairs) objAppendEntry(data, key, coerce(value))`. */
  method AppendEach(pairs: seq<(string, string)>, coerce: Coerce) returns (data: Record)
    ensures fresh(data) && data.Valid()
    ensures data.fields == AppendAll(EmptyMap(), Coerced(pairs, coerce))
  {
    data := new Record();
    var all := Coerced(pairs, coerce);
    assert all[..0] == [];
    var i := 0;
    while i < |pairs|
      invariant 0 <= i <= |pairs|
      invariant data.Valid() && data.fields == AppendAll(EmptyMap(), all[..i])
    {
      AppendAllSnoc(all, i);
      ObjAppendEntry(data, pairs[i].0, coerce(pairs[i].1));
      i := i + 1;
    }
    assert all[..i] == all;
  }

  lemma AppendAllSnoc(all: seq<(string, Item)>, i: nat)
    requires i < |all|
    ensures AppendAll(EmptyMap(), all[..i + 1]) == Appended(AppendAll(EmptyMap(), all[..i]), all[i].0, all[i].1)
  {
    assert all[..i + 1][..i] == all[..i];
  }

  /** A form-data entry: an uploaded file (by identity) or a text field. */
  datatype FormEntry = FileEntry(file: nat) | FieldEntry(text: string)

  /** One form-data entry: a file is assigned, a field is appended after coercion. */
  function FormStep(prev: Fields, entry: (string, FormEntry), coerce: Coerce): (r: Fields)
    ensures OrderedMaps.Valid(prev) ==> OrderedMaps.Valid(r)
  {
    match entry.1
    case FileEntry(f) => Put(prev, entry.0, One(Upload(f)))
    case FieldEntry(t) => Appended(prev, entry.0, coerce(t))
  }

  /** The record a form-data body fills, entry by entry. */
  function FormDataFields(entries: seq<(string, FormEntry)>, coerce: Coerce): (r: Fields)
    ensures OrderedMaps.Valid(r)
  {
    if entries == [] then EmptyMap()
    else FormStep(FormDataFields(entries[..|entries| - 1], coerce), entries[|entries| - 1], coerce)
  }

  function FieldPairs(entries: seq<(string, FormEntry)>): (r: seq<(string, string)>)
    requires forall i :: 0 <= i < |entries| ==> entries[i].1.FieldEntry?
    ensures |r| == |entries|
  {
    seq(|entries|, i requires 0 <= i < |entries| && entries[i].1.FieldEntry? => (entries[i].0, entries[i].1.text))
  }

  /** Without files, a form-data body accumulates exactly as a url-encoded one. */
  lemma {:induction false} FormDataWithoutFiles(entries: seq<(string, FormEntry)>, coerce: Coerce)
    requires forall i :: 0 <= i < |entries| ==> entries[i].1.FieldEntry?
    ensures FormDataFields(entries, coerce) == AppendAll(EmptyMap(), Coerced(FieldPairs(entries), coerce))
  {
    if entries != [] {
      var init := entries[..|entries| - 1];
      FormDataWithoutFiles(init, coerce);
      CoercedFieldsInit(entries, coerce);
    }
  }

  lemma CoercedFieldsInit(entries: seq<(string, FormEntry)>, coerce: Coerce)
    requires entries != [] && forall i :: 0 <= i < |entries| ==> entries[i].1.FieldEntry?
    ensures var all := Coerced(FieldPairs(entries), coerce);
      all[..|all| - 1] == Coerced(FieldPairs(entries[..|entries| - 1]), coerce) &&
      all[|all| - 1] == (entries[|entries| - 1].0, coerce(entries[|entries| - 1].1.text))
  {
  }

  /** A file replaces whatever its key held, and a later field under that key turns it into [file, value]. */
  lemma {:induction false} FileThenField(entries: seq<(string, FormEntry)>, key: string, f: nat, t: string, coerce: Coerce)
    requires |entries| >= 2
    requires entries[|entries| - 2] == (key, FileEntry(f)) && entries[|entries| - 1] == (key, FieldEntry(t))
    ensures Lookup(FormDataFields(entries[..|entries| - 1], coerce), key) == Some(One(Upload(f)))
    ensures Lookup(FormDataFields(entries, coerce), key) == Some(Many([Upload(f), coerce(t)]))
  {
    var init := entries[..|entries| - 1];
    assert init[|init| - 1] == (key, FileEntry(f));
    var mid := FormDataFields(init, coerce);
    assert mid == Put(FormDataFields(init[..|init| - 1], coerce), key, One(Upload(f)));
    assert Lookup(mid, key) == Some(One(Upload(f)));
    assert FormDataFields(entries, coerce) == Appended(mid, key, coerce(t));
    AppendedCollects(mid, key, coerce(t));
  }

  method ApplyEntry(data: Record, entry: (string, FormEntry), coerce: Coerce)
    requires data.Valid()
    modifies data
    ensures data.Valid() && data.fields == FormStep(old(data.fields), entry, coerce)
  {
    match entry.1
    case FileEntry(f) => data.Assign(entry.0, One(Upload(f)));
    case FieldEntry(t) => ObjAppendEntry(data, entry.0, coerce(t));
  }

  /** The form-data loop. */
  method FillFormData(entries: seq<(string, FormEntry)>, coerce: Coerce) returns (data: Record)
    ensures fresh(data) && data.Valid()
    ensures data.fields == FormDataFields(entries, coerce)
  {
    data := new Record();
    var i := 0;
    while i < |entries|
      invariant 0 <= i <= |entries|
      invariant data.Valid() && data.fields == FormDataFields(entries[..i], coerce)
    {
      TakeOneMore(entries, i);
      assert entries[..i + 1][..i] == entries[..i];
      ApplyEntry(data, entries[i], coerce);
      i := i + 1;
    }
    assert entries[..i] == entries;
  }

  /** The request segment at a position, URI-decoded when asked; None where decoding throws. */
  function Segment(reqs: seq<string>, i: nat, decode: bool): Option<string>
    requires i < |reqs|
  {
    if decode then UriComponent.Decode(reqs[i]) else Some(reqs[i])
  }

  predicate IsParam(part: string)
  {
    StartsWith(part, ":")
  }

  /**
   * The parameter record after the first n template parts: a `:name` part
   * with a request segment at its position sets `name`; None once a segment
   * fails to decode.
   */
  function Captures(defs: seq<string>, reqs: seq<string>, n: nat, decode: bool, coerce: Coerce): (r: Option<Fields>)
    requires n <= |defs|
    ensures r.Some? ==> OrderedMaps.Valid(r.value)
  {
    if n == 0 then Some(EmptyMap())
    else match Captures(defs, reqs, n - 1, decode, coerce)
      case None => None
      case Some(prev) =>
        var part := defs[n - 1];
        if IsParam(part) && n - 1 < |reqs| then
          match Segment(reqs, n - 1, decode)
          case None => None
          case Some(v) => Some(Put(prev, part[1..], One(coerce(v))))
        else Some(prev)
  }

  /** The last position before n holding the parameter `:key` with a request segment there. */
  function LastParamAt(defs: seq<string>, reqs: seq<string>, n: nat, key: string): (r: Option<nat>)
    requires n <= |defs|
    ensures r.Some? ==> r.value < n && r.value < |reqs| && defs[r.value] == ":" + key
  {
    if n == 0 then None
    else if defs[n - 1] == ":" + key && n - 1 < |reqs| then Some(n - 1)
    else LastParamAt(defs, reqs, n - 1, key)
  }

  lemma ParamKey(part: string, key: string)
    ensures IsParam(part) && part[1..] == key <==> part == ":" + key
  {
    if part == ":" + key {
      assert part[..1] == ":";
    }
    if IsParam(part) && part[1..] == key {
      assert part == part[..1] + part[1..];
    }
  }

  /**
   * Each parameter name holds the coerced segment of its last occurrence in
   * the template that has a request segment; a name whose positions all lie
   * beyond the request path is absent, and names outside the template never
   * appear.
   */
  lemma {:induction false} CapturesLookup(defs: seq<string>, reqs: seq<string>, n: nat, decode: bool, coerce: Coerce, key: string)
    requires n <= |defs|
    requires Captures(defs, reqs, n, decode, coerce).Some?
    ensures var at := LastParamAt(defs, reqs, n, key);
      at.Some? ==> Segment(reqs, at.value, decode).Some?
    ensures var at := LastParamAt(defs, reqs, n, key);
      Lookup(Captures(defs, reqs, n, decode, coerce).value, key) ==
        if at.None? then None else Some(One(coerce(Segment(reqs, at.value, decode).value)))
  {
    if n > 0 {
      CapturesLookup(defs, reqs, n - 1, decode, coerce, key);
      ParamKey(defs[n - 1], key);
    }
  }

  /** Without decoding nothing can fail. */
  lemma {:induction false} CapturesWithoutDecode(defs: seq<string>, reqs: seq<string>, n: nat, coerce: Coerce)
    requires n <= |defs|
    ensures Captures(defs, reqs, n, false, coerce).Some?
  {
    if n > 0 {
      CapturesWithoutDecode(defs, reqs, n - 1, coerce);
    }
  }

  lemma {:induction false} CapturesNoneStays(defs: seq<string>, reqs: seq<string>, n: nat, m: nat, decode: bool, coerce: Coerce)
    requires n <= m <= |defs|
    requires Captures(defs, reqs, n, decode, coerce).None?
    ensures Captures(defs, reqs, m, decode, coerce).None?
  {
    if m > n {
      CapturesNoneStays(defs, reqs, n, m - 1, decode, coerce);
    }
  }

  /** The parameter loop: Throw-free outcome None means the source's URIError. */
  method FillParams(defs: seq<string>, reqs: seq<string>, decode: bool, coerce: Coerce) returns (data: Record, ok: bool)
    ensures fresh(data) && data.Valid()
    ensures ok <==> Captures(defs, reqs, |defs|, decode, coerce).Some?
    ensures ok ==> data.fields == Captures(defs, reqs, |defs|, decode, coerce).value
  {
    data := new Record();
    var i := 0;
    while i < |defs|
      invariant 0 <= i <= |defs|
      invariant data.Valid() && Captures(defs, reqs, i, decode, coerce) == Some(data.fields)
    {
      var part := defs[i];
      if IsParam(part) && i < |reqs| {
        var v := Segment(reqs, i, decode);
        if v.None? {
          CapturesNoneStays(defs, reqs, i + 1, |defs|, decode, coerce);
          return data, false;
        }
        data.Assign(part[1..], One(coerce(v.value)));
      }
      i := i + 1;
    }
    ok := true;
  }
}

module BodyParsing {
  import opened Wrappers
  import opened Strings
  import opened HttpErrors
  import opened ContentTypes
  import opened Parsing
  import opened Extraction
  import opened Coercion
  import opened Records
  import opened OrderedMaps
  import Json
  import RoutePattern

  /** What the platform hands a parser when it reads the body stream. */
  datatype RawBody = RawBody(
    text: string,                          // `text()`, already decoded
    json: Option<Json.Json>,               // `json()`; None where it throws a SyntaxError
    urlEncoded: seq<(string, string)>,     // `new URLSearchParams(text).entries()`
    formData: seq<(string, FormEntry)>)    // `formData().entries()`

  datatype Generation = TopLevel | Modules

  const ContentTypeRejection: Thrown := Http(HttpError("unprocessable.contentType", 422, None))

  /** `getFormUrlEncodedBody`: an empty or blank body is a SyntaxError, else the pairs are appended. */
  function UrlEncodedFields(raw: RawBody, coerce: Coerce): (r: Outcome<Fields>)
    ensures r.Throw? <==> Trim(raw.text) == ""
    ensures r.Throw? ==> r.err.Syntax?
  {
    if Trim(raw.text) == "" then Throw(Syntax("Body is empty"))
    else Ok(AppendAll(EmptyMap(), Coerced(raw.urlEncoded, coerce)))
  }

  /** The `try` block of `getBody`, before its `catch`. */
  function ReadBody(gen: Generation, kind: Kind, raw: RawBody, validate: Option<Validator>, coerce: Coerce): Outcome<Data>
  {
    match kind
    case NoBodyAllowed => Ok(Empty())
    case JsonBody =>
      if raw.json.None? then Throw(Syntax("JSON Parse error")) else Parse(Document(raw.json.value), validate)
    case FormUrlEncoded =>
      (match UrlEncodedFields(raw, coerce)
       case Throw(e) => Throw(e)
       case Ok(f) => Parse(Object(f), validate))
    case FormData => Parse(Object(FormDataFields(raw.formData, coerce)), validate)
    case PlainText => Parse(Scalar(coerce(raw.text)), validate)
    case Unknown =>
      if gen == TopLevel then Parse(Scalar(coerce(raw.text)), validate) else Throw(ContentTypeRejection)
    case _ => Throw(ContentTypeRejection)
  }

  /** `getBody`: a SyntaxError raised while reading is answered with `{}`. */
  function GetBodySpec(gen: Generation, kind: Kind, raw: RawBody, validate: Option<Validator>, coerce: Coerce): Outcome<Data>
  {
    var r := ReadBody(gen, kind, raw, validate, coerce);
    if r.Throw? && r.err.Syntax? then Ok(Empty()) else r
  }

  /** `getBody` as the source runs it, with the form loops. */
  method GetBody(gen: Generation, kind: Kind, raw: RawBody, validate: Option<Validator>, coerce: Coerce) returns (r: Outcome<Data>)
    ensures r == GetBodySpec(gen, kind, raw, validate, coerce)
  {
    match kind
    case NoBodyAllowed =>
      return Ok(Empty());
    case JsonBody =>
      if raw.json.None? {
        return Ok(Empty());
      }
      r := Parse(Document(raw.json.value), validate);
    case FormUrlEncoded =>
      if Trim(raw.text) == "" {
        return Ok(Empty());
      }
      var data := AppendEach(raw.urlEncoded, coerce);
      r := Parse(Object(data.fields), validate);
    case FormData =>
      var data := FillFormData(raw.formData, coerce);
      r := Parse(Object(data.fields), validate);
    case PlainText =>
      r := Parse(Scalar(coerce(raw.text)), validate);
    case Unknown =>
      if gen == TopLevel {
        r := Parse(Scalar(coerce(raw.text)), validate);
      } else {
        r := Throw(ContentTypeRejection);
      }
    case _ =>
      r := Throw(ContentTypeRejection);
  }

  /** Bad JSON and an empty url-encoded body give `{}` without consulting the schema. */
  lemma SyntaxErrorYieldsEmpty(gen: Generation, kind: Kind, raw: RawBody, validate: Option<Validator>, coerce: Coerce)
    requires (kind == JsonBody && raw.json.None?) || (kind == FormUrlEncoded && Trim(raw.text) == "")
    ensures GetBodySpec(gen, kind, raw, validate, coerce) == Ok(Empty())
  {
  }

  /** Whatever `getBody` throws is a 422 HttpError: SyntaxErrors never escape. */
  lemma GetBodyThrowsOnly422(gen: Generation, kind: Kind, raw: RawBody, validate: Option<Validator>, coerce: Coerce)
    ensures var r := GetBodySpec(gen, kind, raw, validate, coerce);
      r.Throw? ==> r.err.Http? && StatusOf(r.err) == 422
  {
  }

  /** The media kinds, and in the modules generation an unknown type, are refused before reading. */
  lemma UnreadableKindsRejected(gen: Generation, kind: Kind, raw: RawBody, validate: Option<Validator>, coerce: Coerce)
    requires IsMedia(kind) || (gen == Modules && kind == Unknown)
    ensures GetBodySpec(gen, kind, raw, validate, coerce) == Throw(ContentTypeRejection)
  {
  }

  /** A method without a body gives `{}` whatever the schema says. */
  lemma NoBodySkipsValidation(gen: Generation, raw: RawBody, validate: Option<Validator>, coerce: Coerce)
    ensures GetBodySpec(gen, NoBodyAllowed, raw, validate, coerce) == Ok(Empty())
  {
  }

  /**
   * The two generations part only on an unknown content type: the top-level
   * parser reads it as text and validates that, the modules parser refuses it.
   */
  lemma GenerationsDifferOnlyOnUnknown(kind: Kind, raw: RawBody, validate: Option<Validator>, coerce: Coerce)
    ensures kind != Unknown ==> GetBodySpec(TopLevel, kind, raw, validate, coerce) == GetBodySpec(Modules, kind, raw, validate, coerce)
    ensures GetBodySpec(TopLevel, Unknown, raw, validate, coerce) == Parse(Scalar(coerce(raw.text)), validate)
    ensures GetBodySpec(Modules, Unknown, raw, validate, coerce) == Throw(ContentTypeRejection)
  {
  }

  /** A url-encoded body keeps every value of a repeated key, in order. */
  lemma UrlEncodedKeepsRepeats(raw: RawBody, coerce: Coerce, key: string)
    requires Trim(raw.text) != ""
    ensures UrlEncodedFields(raw, coerce).Ok?
    ensures Lookup(UrlEncodedFields(raw, coerce).value, key) == FromCollected(ValuesFor(Coerced(raw.urlEncoded, coerce), key))
  {
    AppendAllShape(EmptyMap(), Coerced(raw.urlEncoded, coerce), key);
  }

  /** The uncoerced reading of the oldest context. */
  function AsText(s: string): (r: Item)
    ensures r == Text(s)
  {
    Text(s)
  }

  /**
   * `parseRequestBody` of the oldest context: an unknown type is its own
   * 422, there is no SyntaxError recovery, form values stay text, text is
   * raw, and the body schema gives "unprocessable.body".
   */
  function CoreumBodySpec(kind: Kind, raw: RawBody, schema: Option<Validator>): Outcome<Data>
  {
    match kind
    case NoBodyAllowed => Ok(Empty())
    case JsonBody =>
      if raw.json.None? then Throw(Syntax("JSON Parse error")) else ParseWithSchema("body", Document(raw.json.value), schema)
    case FormUrlEncoded =>
      (match UrlEncodedFields(raw, AsText)
       case Throw(e) => Throw(e)
       case Ok(f) => ParseWithSchema("body", Object(f), schema))
    case FormData => ParseWithSchema("body", Object(FormDataFields(raw.formData, AsText)), schema)
    case PlainText => ParseWithSchema("body", Scalar(Text(raw.text)), schema)
    case Unknown => Throw(Http(HttpError("unprocessable.body", 422, None)))
    case _ => Throw(ContentTypeRejection)
  }

  method CoreumParseRequestBody(kind: Kind, raw: RawBody, schema: Option<Validator>) returns (r: Outcome<Data>)
    ensures r == CoreumBodySpec(kind, raw, schema)
  {
    match kind
    case NoBodyAllowed =>
      r := Ok(Empty());
    case JsonBody =>
      if raw.json.None? {
        return Throw(Syntax("JSON Parse error"));
      }
      r := ParseWithSchema("body", Document(raw.json.value), schema);
    case FormUrlEncoded =>
      if Trim(raw.text) == "" {
        return Throw(Syntax("Body is empty"));
      }
      var data := AppendEach(raw.urlEncoded, AsText);
      r := ParseWithSchema("body", Object(data.fields), schema);
    case FormData =>
      var data := FillFormData(raw.formData, AsText);
      r := ParseWithSchema("body", Object(data.fields), schema);
    case PlainText =>
      r := ParseWithSchema("body", Scalar(Text(raw.text)), schema);
    case Unknown =>
      r := Throw(Http(HttpError("unprocessable.body", 422, None)));
    case _ =>
      r := Throw(ContentTypeRejection);
  }

  /**
   * In the oldest context a SyntaxError escapes to the caller; an unknown
   * or media type is a 422, and a schema rejection is a plain `Error`.
   */
  lemma CoreumBodyErrors(kind: Kind, raw: RawBody, schema: Option<Validator>)
    ensures kind == JsonBody && raw.json.None? ==> CoreumBodySpec(kind, raw, schema).Throw? && CoreumBodySpec(kind, raw, schema).err.Syntax?
    ensures kind == FormUrlEncoded && Trim(raw.text) == "" ==> CoreumBodySpec(kind, raw, schema) == Throw(Syntax("Body is empty"))
    ensures kind == Unknown ==> CoreumBodySpec(kind, raw, schema) == Throw(Http(HttpError("unprocessable.body", 422, None)))
    ensures var r := CoreumBodySpec(kind, raw, schema);
      r.Throw? ==> r.err.Syntax? || r.err == Failure("unprocessable.body") || (r.err.Http? && StatusOf(r.err) == 422)
  {
    var r := CoreumBodySpec(kind, raw, schema);
    match kind
    case JsonBody =>
      if raw.json.Some? {
        assert r == ParseWithSchema("body", Document(raw.json.value), schema);
      }
    case FormUrlEncoded =>
      var fields := UrlEncodedFields(raw, AsText);
      if fields.Ok? {
        assert r == ParseWithSchema("body", Object(fields.value), schema);
      } else {
        assert r == Throw(fields.err);
      }
    case FormData =>
      assert r == ParseWithSchema("body", Object(FormDataFields(raw.formData, AsText)), schema);
    case PlainText =>
      assert r == ParseWithSchema("body", Scalar(Text(raw.text)), schema);
    case Unknown =>
    case NoBodyAllowed =>
    case _ =>
      assert r == Throw(ContentTypeRejection);
  }

  /** `getSearch`: each value coerced, the last of a repeated key kept, then validated. */
  method GetSearch(pairs: seq<(string, string)>, validate: Option<Validator>, coerce: Coerce) returns (r: Outcome<Data>)
    ensures r == Parse(Object(LastWins(pairs, coerce)), validate)
  {
    var data := AssignEach(pairs, coerce);
    r := Parse(Object(data.fields), validate);
  }

  /** `parseRequestSearch` of the oldest context: repeats accumulate into arrays, no blank guard. */
  method CoreumParseRequestSearch(pairs: seq<(string, string)>, schema: Option<Validator>) returns (r: Outcome<Data>)
    ensures r == ParseWithSchema("search", Object(AppendAll(EmptyMap(), Coerced(pairs, GetProcessedValue))), schema)
  {
    var data := AppendEach(pairs, GetProcessedValue);
    r := ParseWithSchema("search", Object(data.fields), schema);
  }

  /** The search generations part on repeated keys: the newer parsers keep the last value, the oldest keeps them all. */
  lemma SearchRepeatsDiffer(pairs: seq<(string, string)>, key: string)
    ensures Lookup(LastWins(pairs, ProcessString), key) ==
      (if LastValue(pairs, key).None? then None else Some(One(ProcessString(LastValue(pairs, key).value))))
    ensures Lookup(AppendAll(EmptyMap(), Coerced(pairs, GetProcessedValue)), key) ==
      FromCollected(ValuesFor(Coerced(pairs, GetProcessedValue), key))
  {
    LastWinsLookup(pairs, ProcessString, key);
    AppendAllShape(EmptyMap(), Coerced(pairs, GetProcessedValue), key);
  }

  /** `getParams`: no ':' in the template gives `{}` unvalidated; a URIError escapes. */
  function ParamsSpec(endpoint: string, pathname: string, validate: Option<Validator>, coerce: Coerce): Outcome<Data>
  {
    if ':' !in endpoint then Ok(Empty())
    else
      var defs := Split(endpoint, '/');
      match Captures(defs, Split(pathname, '/'), |defs|, true, coerce)
      case None => Throw(Failure("URI malformed"))
      case Some(f) => Parse(Object(f), validate)
  }

  method GetParams(endpoint: string, pathname: string, validate: Option<Validator>, coerce: Coerce) returns (r: Outcome<Data>)
    ensures r == ParamsSpec(endpoint, pathname, validate, coerce)
  {
    if ':' !in endpoint {
      return Ok(Empty());
    }
    var data, ok := FillParams(Split(endpoint, '/'), Split(pathname, '/'), true, coerce);
    if !ok {
      return Throw(Failure("URI malformed"));
    }
    r := Parse(Object(data.fields), validate);
  }

  /** `parseRequestParams` of the oldest context: no decoding, no ':' shortcut, always the params schema. */
  function CoreumParamsSpec(requestPath: string, definedPath: string, schema: Option<Validator>): Outcome<Data>
  {
    var defs := Split(definedPath, '/');
    CapturesWithoutDecode(defs, Split(requestPath, '/'), |defs|, GetProcessedValue);
    ParseWithSchema("params", Object(Captures(defs, Split(requestPath, '/'), |defs|, false, GetProcessedValue).value), schema)
  }

  method CoreumParseRequestParams(requestPath: string, definedPath: string, schema: Option<Validator>) returns (r: Outcome<Data>)
    ensures r == CoreumParamsSpec(requestPath, definedPath, schema)
  {
    var defs := Split(definedPath, '/');
    var data, ok := FillParams(defs, Split(requestPath, '/'), false, GetProcessedValue);
    CapturesWithoutDecode(defs, Split(requestPath, '/'), |defs|, GetProcessedValue);
    r := ParseWithSchema("params", Object(data.fields), schema);
  }

  lemma {:induction false} SplitAvoids(s: string, sep: char, c: char)
    requires c !in s
    ensures forall k :: 0 <= k < |Split(s, sep)| ==> c !in Split(s, sep)[k]
  {
    if s != [] {
      assert forall x :: x in s[1..] ==> x in s;
      SplitAvoids(s[1..], sep, c);
    }
  }

  lemma {:induction false} CapturesWithoutParams(defs: seq<string>, reqs: seq<string>, n: nat, decode: bool, coerce: Coerce)
    requires n <= |defs|
    requires forall k :: 0 <= k < |defs| ==> ':' !in defs[k]
    ensures Captures(defs, reqs, n, decode, coerce) == Some(EmptyMap())
  {
    if n > 0 {
      CapturesWithoutParams(defs, reqs, n - 1, decode, coerce);
      if IsParam(defs[n - 1]) {
        assert defs[n - 1][0] == ':';
      }
    }
  }

  /**
   * A template without ':' skips validation in the newer parsers, but the
   * oldest context still runs the params schema, on `{}`.
   */
  lemma StaticTemplateParams(endpoint: string, pathname: string, validate: Option<Validator>, coerce: Coerce)
    requires ':' !in endpoint
    ensures ParamsSpec(endpoint, pathname, validate, coerce) == Ok(Empty())
    ensures CoreumParamsSpec(pathname, endpoint, validate) == ParseWithSchema("params", Empty(), validate)
  {
    var defs := Split(endpoint, '/');
    SplitAvoids(endpoint, '/', ':');
    CapturesWithoutParams(defs, Split(pathname, '/'), |defs|, false, GetProcessedValue);
  }

  /**
   * A template whose last parameter has no request segment leaves that
   * parameter absent: "/x/:id" against "/x" validates `{}`, so a schema
   * requiring `id` answers 422.
   */
  lemma MissingTrailingParam(endpoint: string, pathname: string, validate: Option<Validator>, coerce: Coerce)
    requires endpoint == "/x/:id" && pathname == "/x"
    ensures ParamsSpec(endpoint, pathname, validate, coerce) == Parse(Empty(), validate)
  {
    assert "/" + "x" + "/" + ":id" == endpoint;
    assert "/" + "x" == pathname;
    RoutePattern.SplitThree("x", ":id");
    RoutePattern.SplitTwo("x");
    var defs, reqs := Split(endpoint, '/'), Split(pathname, '/');
    assert ':' in endpoint by { assert endpoint[3] == ':'; }
    assert !IsParam(defs[0]) && !IsParam(defs[1]);
    assert Captures(defs, reqs, 1, true, coerce) == Some(EmptyMap());
    assert Captures(defs, reqs, 2, true, coerce) == Some(EmptyMap());
    assert Captures(defs, reqs, 3, true, coerce) == Some(EmptyMap());
  }
}
