// Content-type classification, shared by both parsers' getNormalizedContentType
// (src/Model/Parser.ts, src/modules/Parser/Parser.ts) and the contentType
// getter of the oldest request wrapper (src/lib/Request/__Coreum_Request.ts).

module ContentTypes {
  import opened Wrappers
  import opened Strings

  datatype Kind =
    | NoBodyAllowed
    | JsonBody
    | FormUrlEncoded
    | FormData
    | PlainText
    | Xml
    | Binary
    | Pdf
    | Image
    | Audio
    | Video
    | Unknown

  /** The kinds every parser refuses with 422 "unprocessable.contentType". */
  predicate IsMedia(k: Kind)
  {
    k.Xml? || k.Binary? || k.Pdf? || k.Image? || k.Audio? || k.Video?
  }

  /** The methods whose body is read: POST, PUT, PATCH and DELETE, compared upper-cased. */
  predicate AllowsBody(verb: string)
  {
    ToUpper(verb) in ["POST", "PUT", "PATCH", "DELETE"]
  }

  /**
   * `getNormalizedContentType`: a request (it has a method) whose method
   * carries no body is "no-body-allowed"; otherwise the first of a fixed list
   * of substrings found in the Content-Type header (missing counts as "")
   * decides. A response has no method, given here as None.
   */
  function Normalize(verb: Option<string>, header: Option<string>): (k: Kind)
  {
    var h := header.GetOr("");
    if verb.Some? && !AllowsBody(verb.value) then NoBodyAllowed
    else if Contains(h, "application/json") then JsonBody
    else if Contains(h, "application/x-www-form-urlencoded") then FormUrlEncoded
    else if Contains(h, "multipart/form-data") then FormData
    else if Contains(h, "text/plain") then PlainText
    else if Contains(h, "application/xml") then Xml
    else if Contains(h, "text/xml") then Xml
    else if Contains(h, "application/octet-stream") then Binary
    else if Contains(h, "application/pdf") then Pdf
    else if Contains(h, "image/") then Image
    else if Contains(h, "audio/") then Audio
    else if Contains(h, "video/") then Video
    else Unknown
  }

  /** The substring table the classifier walks, in its order. */
  const Needles: seq<(string, Kind)> := [
    ("application/json", JsonBody),
    ("application/x-www-form-urlencoded", FormUrlEncoded),
    ("multipart/form-data", FormData),
    ("text/plain", PlainText),
    ("application/xml", Xml),
    ("text/xml", Xml),
    ("application/octet-stream", Binary),
    ("application/pdf", Pdf),
    ("image/", Image),
    ("audio/", Audio),
    ("video/", Video)
  ]

  /** The kind of the first table entry whose substring the header contains, else Unknown. */
  function FirstMatch(h: string, table: seq<(string, Kind)>): Kind
  {
    if table == [] then Unknown
    else if Contains(h, table[0].0) then table[0].1
    else FirstMatch(h, table[1..])
  }

  lemma FirstMatchStep(h: string, i: nat)
    requires i < |Needles|
    ensures FirstMatch(h, Needles[i..]) ==
      if Contains(h, Needles[i].0) then Needles[i].1 else FirstMatch(h, Needles[i + 1..])
  {
    assert Needles[i..][1..] == Needles[i + 1..];
  }

  /** The chain of tests is the first-match walk over the table. */
  lemma NormalizeIsFirstMatch(verb: Option<string>, header: Option<string>)
    ensures Normalize(verb, header) ==
      (if verb.Some? && !AllowsBody(verb.value) then NoBodyAllowed
       else FirstMatch(header.GetOr(""), Needles))
  {
    var h := header.GetOr("");
    assert Needles[0..] == Needles;
    FirstMatchStep(h, 0);
    FirstMatchStep(h, 1);
    FirstMatchStep(h, 2);
    FirstMatchStep(h, 3);
    FirstMatchStep(h, 4);
    FirstMatchStep(h, 5);
    FirstMatchStep(h, 6);
    FirstMatchStep(h, 7);
    FirstMatchStep(h, 8);
    FirstMatchStep(h, 9);
    FirstMatchStep(h, 10);
    assert Needles[11..] == [];
  }

  /**
   * The first-match walk: Unknown exactly when no entry's substring occurs,
   * and otherwise the kind of an entry that occurs with no earlier entry
   * occurring.
   */
  lemma {:induction false} FirstMatchSpec(h: string, table: seq<(string, Kind)>)
    requires forall i :: 0 <= i < |table| ==> table[i].1 != Unknown
    ensures FirstMatch(h, table) == Unknown <==> forall i :: 0 <= i < |table| ==> !Contains(h, table[i].0)
    ensures FirstMatch(h, table) != Unknown ==>
      exists i :: 0 <= i < |table| && table[i].1 == FirstMatch(h, table) && Contains(h, table[i].0) &&
        forall j :: 0 <= j < i ==> !Contains(h, table[j].0)
  {
    if table != [] && !Contains(h, table[0].0) {
      FirstMatchSpec(h, table[1..]);
      assert forall i :: 1 <= i < |table| ==> table[i] == table[1..][i - 1];
      if FirstMatch(h, table) != Unknown {
        var i :| 0 <= i < |table[1..]| && table[1..][i].1 == FirstMatch(h, table) && Contains(h, table[1..][i].0) &&
          forall j :: 0 <= j < i ==> !Contains(h, table[1..][j].0);
        assert forall j :: 0 <= j < i + 1 ==> !Contains(h, table[j].0) by {
          forall j | 0 <= j < i + 1 ensures !Contains(h, table[j].0) {
            if j > 0 { assert table[j] == table[1..][j - 1]; }
          }
        }
      }
    }
  }

  /** "no-body-allowed" comes from the method alone: exactly a request whose method carries no body. */
  lemma NoBodyAllowedIff(verb: Option<string>, header: Option<string>)
    ensures Normalize(verb, header) == NoBodyAllowed <==> verb.Some? && !AllowsBody(verb.value)
  {
    NormalizeIsFirstMatch(verb, header);
    FirstMatchNeverNoBody(header.GetOr(""), Needles);
  }

  lemma {:induction false} FirstMatchNeverNoBody(h: string, table: seq<(string, Kind)>)
    requires forall i :: 0 <= i < |table| ==> table[i].1 != NoBodyAllowed
    ensures FirstMatch(h, table) != NoBodyAllowed
  {
    if table != [] && !Contains(h, table[0].0) {
      FirstMatchNeverNoBody(h, table[1..]);
    }
  }

  /** A body-carrying request and a response classify alike. */
  lemma ResponseLikeBodyRequest(verb: string, header: Option<string>)
    requires AllowsBody(verb)
    ensures Normalize(Some(verb), header) == Normalize(None, header)
  {
  }

  /** A JSON body with parameters after the media type is still JSON. */
  lemma JsonWithCharset(m: string, h: string)
    requires m == "POST" && h == "application/json; charset=utf-8"
    ensures Normalize(Some(m), Some(h)) == JsonBody
  {
    assert ToUpper(m) == "POST";
    assert h[0..][..|"application/json"|] == "application/json";
  }

  /** A GET is never read, whatever its Content-Type says. */
  lemma GetIsNeverRead(header: Option<string>, m: string)
    requires m == "get"
    ensures Normalize(Some(m), header) == NoBodyAllowed
  {
    assert ToUpper(m) == "GET";
  }

  /** The method is compared upper-cased, so a lower-case "post" is read. */
  lemma LowerCasePostIsRead(m: string)
    requires m == "post"
    ensures AllowsBody(m)
  {
    assert ToUpper(m) == "POST";
  }
}
