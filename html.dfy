// The page builder of src/HTML/HTML.ts: a skeleton record becomes an HTML
// document whose head holds one generated tag per line. Attribute values
// are written verbatim, never escaped.

module Html {
  import opened Wrappers
  import opened Strings
  import Json

  datatype Meta = Meta(name: Option<string>, property: Option<string>, content: string, httpEquiv: Option<string>)

  datatype Base = Base(href: string, target: Option<string>)

  datatype OpenGraph = OpenGraph(
    title: Option<string>, description: Option<string>, image: Option<string>, url: Option<string>,
    ogType: Option<string>, siteName: Option<string>, locale: Option<string>)

  datatype AppIds = AppIds(iphone: Option<string>, ipad: Option<string>, googleplay: Option<string>)

  datatype TwitterCard = TwitterCard(
    card: Option<string>, site: Option<string>, creator: Option<string>, title: Option<string>,
    description: Option<string>, image: Option<string>, imageAlt: Option<string>, player: Option<string>,
    playerWidth: Option<int>, playerHeight: Option<int>, appId: Option<AppIds>)

  datatype Favicon = Favicon(rel: string, href: string, sizes: Option<string>, mediaType: Option<string>, color: Option<string>)

  /** A `<link>` entry; `destination` is the `as` attribute. */
  datatype Link = Link(
    rel: string, href: string, mediaType: Option<string>, sizes: Option<string>, media: Option<string>,
    integrity: Option<string>, crossorigin: Option<string>, referrerpolicy: Option<string>,
    destination: Option<string>, hreflang: Option<string>, title: Option<string>)

  /** A `<script>` entry; an undefined boolean flag is `false`. */
  datatype Script = Script(
    src: Option<string>, content: Option<string>, mediaType: Option<string>, async: bool, defer: bool,
    integrity: Option<string>, crossorigin: Option<string>, referrerpolicy: Option<string>, nomodule: bool)

  datatype Skeleton = Skeleton(
    title: string, lang: string, contents: string,
    charset: Option<string>, viewport: Option<string>, description: Option<string>,
    keywords: Option<seq<string>>, author: Option<string>, robots: Option<string>, canonical: Option<string>,
    links: Option<seq<Link>>, metas: Option<seq<Meta>>, base: Option<Base>, og: Option<OpenGraph>,
    twitter: Option<TwitterCard>, favicons: Option<seq<Favicon>>, scripts: Option<seq<Script>>,
    jsonLd: Option<seq<Json.Json>>)

  const DefaultCharset := "UTF-8"
  const DefaultViewport := "width=device-width, initial-scale=1.0"

  /** An optional string that JavaScript treats as true: present and not empty. */
  predicate Truthy(o: Option<string>)
  {
    o.Some? && o.value != ""
  }

  type Attr = (string, string)

  /** Each attribute as `key="value"`, in insertion order. */
  function AttrTexts(attrs: seq<Attr>): (r: seq<string>)
    ensures |r| == |attrs|
  {
    if attrs == [] then []
    else AttrTexts(attrs[..|attrs| - 1]) + [Quoted(attrs[|attrs| - 1].0, attrs[|attrs| - 1].1)]
  }

  /** The `add(tag, attr)` closure's line: the tag and its space-separated attributes. */
  function Tag(tag: string, attrs: seq<Attr>): string
  {
    "<" + tag + " " + Join(AttrTexts(attrs), " ") + ">"
  }

  /** The charset and viewport tags, emitted for every skeleton. */
  function Leading(sk: Skeleton): seq<string>
  {
    [Tag("meta", [("charset", sk.charset.GetOr(DefaultCharset))]),
     Tag("meta", [("name", "viewport"), ("content", sk.viewport.GetOr(DefaultViewport))])]
  }

  /** A `<meta name=… content=…>` line when the field is truthy. */
  function NamedMeta(field: Option<string>, name: string): seq<string>
  {
    if Truthy(field) then [Tag("meta", [("name", name), ("content", field.value)])] else []
  }

  /** A `<meta property=… content=…>` line when the field is truthy. */
  function PropertyMeta(field: Option<string>, property: string): seq<string>
  {
    if Truthy(field) then [Tag("meta", [("property", property), ("content", field.value)])] else []
  }

  /** A numeric `<meta property=…>` line when the number is truthy (not zero). */
  function NumberMeta(field: Option<int>, property: string): seq<string>
  {
    if field.Some? && field.value != 0 then [Tag("meta", [("property", property), ("content", IntToString(field.value))])] else []
  }

  function KeywordLines(keywords: Option<seq<string>>): seq<string>
  {
    if keywords.Some? && |keywords.value| > 0 then [Tag("meta", [("name", "keywords"), ("content", Join(keywords.value, ", "))])] else []
  }

  function CanonicalLines(canonical: Option<string>): seq<string>
  {
    if Truthy(canonical) then [Tag("link", [("rel", "canonical"), ("href", canonical.value)])] else []
  }

  /** Description, keywords, author, robots and canonical, each only when truthy. */
  function Basics(sk: Skeleton): seq<string>
  {
    NamedMeta(sk.description, "description") + KeywordLines(sk.keywords) + NamedMeta(sk.author, "author") +
    NamedMeta(sk.robots, "robots") + CanonicalLines(sk.canonical)
  }

  /** The line of one custom meta entry: by name, else by property, else by http-equiv, else none. */
  function MetaLine(m: Meta): Option<string>
  {
    if Truthy(m.name) then Some(Tag("meta", [("name", m.name.value), ("content", m.content)]))
    else if Truthy(m.property) then Some(Tag("meta", [("property", m.property.value), ("content", m.content)]))
    else if Truthy(m.httpEquiv) then Some(Tag("meta", [("http-equiv", m.httpEquiv.value), ("content", m.content)]))
    else None
  }

  function MetaLines(metas: seq<Meta>): seq<string>
  {
    if metas == [] then []
    else
      var line := MetaLine(metas[|metas| - 1]);
      MetaLines(metas[..|metas| - 1]) + (if line.Some? then [line.value] else [])
  }

  function OgLines(og: OpenGraph): seq<string>
  {
    PropertyMeta(og.title, "og:title") + PropertyMeta(og.description, "og:description") +
    PropertyMeta(og.image, "og:image") + PropertyMeta(og.url, "og:url") + PropertyMeta(og.ogType, "og:type") +
    PropertyMeta(og.siteName, "og:site_name") + PropertyMeta(og.locale, "og:locale")
  }

  /** The player tag and its size tags, only when the player is truthy. */
  function PlayerLines(tw: TwitterCard): seq<string>
  {
    if Truthy(tw.player) then
      PropertyMeta(tw.player, "twitter:player") + NumberMeta(tw.playerWidth, "twitter:player:width") +
      NumberMeta(tw.playerHeight, "twitter:player:height")
    else []
  }

  function AppIdLines(appId: Option<AppIds>): seq<string>
  {
    if appId.Some? then
      PropertyMeta(appId.value.iphone, "twitter:app:id:iphone") + PropertyMeta(appId.value.ipad, "twitter:app:id:ipad") +
      PropertyMeta(appId.value.googleplay, "twitter:app:id:googleplay")
    else []
  }

  function TwitterLines(tw: TwitterCard): seq<string>
  {
    PropertyMeta(tw.card, "twitter:card") + PropertyMeta(tw.site, "twitter:site") +
    PropertyMeta(tw.creator, "twitter:creator") + PropertyMeta(tw.title, "twitter:title") +
    PropertyMeta(tw.description, "twitter:description") + PropertyMeta(tw.image, "twitter:image") +
    PropertyMeta(tw.imageAlt, "twitter:image:alt") + PlayerLines(tw) + AppIdLines(tw.appId)
  }

  function BaseLine(b: Base): string
  {
    if Truthy(b.target) then Tag("base", [("href", b.href), ("target", b.target.value)]) else Tag("base", [("href", b.href)])
  }

  /** An attribute added only when its field is truthy. */
  function OptionalAttr(field: Option<string>, key: string): seq<Attr>
  {
    if Truthy(field) then [(key, field.value)] else []
  }

  function FaviconAttrs(f: Favicon): seq<Attr>
  {
    [("rel", f.rel), ("href", f.href)] + OptionalAttr(f.sizes, "sizes") + OptionalAttr(f.mediaType, "type") +
    OptionalAttr(f.color, "color")
  }

  function FaviconLines(favicons: seq<Favicon>): seq<string>
  {
    if favicons == [] then []
    else FaviconLines(favicons[..|favicons| - 1]) + [Tag("link", FaviconAttrs(favicons[|favicons| - 1]))]
  }

  function LinkAttrs(l: Link): seq<Attr>
  {
    [("rel", l.rel), ("href", l.href)] + OptionalAttr(l.mediaType, "type") + OptionalAttr(l.sizes, "sizes") +
    OptionalAttr(l.media, "media") + OptionalAttr(l.integrity, "integrity") + OptionalAttr(l.crossorigin, "crossorigin") +
    OptionalAttr(l.referrerpolicy, "referrerpolicy") + OptionalAttr(l.destination, "as") +
    OptionalAttr(l.hreflang, "hreflang") + OptionalAttr(l.title, "title")
  }

  function LinkLines(links: seq<Link>): seq<string>
  {
    if links == [] then []
    else LinkLines(links[..|links| - 1]) + [Tag("link", LinkAttrs(links[|links| - 1]))]
  }

  /** The structured-data script at zero-based position `i`, numbered from 1. */
  function JsonLdLine(i: nat, item: Json.Json): string
  {
    "<script type=\"application/ld+json\" id=\"structured-data-" + NatToString(i + 1) + "\">" +
    Json.Stringify(item) + "</script>"
  }

  function JsonLdLines(items: seq<Json.Json>): seq<string>
  {
    if items == [] then []
    else JsonLdLines(items[..|items| - 1]) + [JsonLdLine(|items| - 1, items[|items| - 1])]
  }

  /** `key="value"`, the value unescaped. */
  function Quoted(key: string, value: string): string
  {
    key + "=\"" + value + "\""
  }

  /** `key="value"` when the field is truthy. */
  function ValuedFlag(field: Option<string>, key: string): seq<string>
  {
    if Truthy(field) then [Quoted(key, field.value)] else []
  }

  /** Source, type and the loading flags. */
  function LoadingAttrs(s: Script): seq<string>
  {
    ValuedFlag(s.src, "src") + ValuedFlag(s.mediaType, "type") + (if s.async then ["async"] else []) +
    (if s.defer then ["defer"] else [])
  }

  /** Integrity, cross-origin, referrer policy and the nomodule flag. */
  function SecurityAttrs(s: Script): seq<string>
  {
    ValuedFlag(s.integrity, "integrity") + ValuedFlag(s.crossorigin, "crossorigin") +
    ValuedFlag(s.referrerpolicy, "referrerpolicy") + (if s.nomodule then ["nomodule"] else [])
  }

  /** The attributes of a script, in their fixed order. */
  function ScriptAttrs(s: Script): seq<string>
  {
    LoadingAttrs(s) + SecurityAttrs(s)
  }

  function ScriptLine(s: Script): string
  {
    if Truthy(s.content) then "<script " + Join(ScriptAttrs(s), " ") + ">" + s.content.value + "</script>"
    else "<script " + Join(ScriptAttrs(s), " ") + "></script>"
  }

  function ScriptLines(scripts: seq<Script>): seq<string>
  {
    if scripts == [] then []
    else ScriptLines(scripts[..|scripts| - 1]) + [ScriptLine(scripts[|scripts| - 1])]
  }

  function MetaSection(sk: Skeleton): seq<string>
  {
    if sk.metas.Some? then MetaLines(sk.metas.value) else []
  }

  function OgSection(sk: Skeleton): seq<string>
  {
    if sk.og.Some? then OgLines(sk.og.value) else []
  }

  function TwitterSection(sk: Skeleton): seq<string>
  {
    if sk.twitter.Some? then TwitterLines(sk.twitter.value) else []
  }

  function BaseSection(sk: Skeleton): seq<string>
  {
    if sk.base.Some? then [BaseLine(sk.base.value)] else []
  }

  function FaviconSection(sk: Skeleton): seq<string>
  {
    if sk.favicons.Some? then FaviconLines(sk.favicons.value) else []
  }

  function LinkSection(sk: Skeleton): seq<string>
  {
    if sk.links.Some? then LinkLines(sk.links.value) else []
  }

  function JsonLdSection(sk: Skeleton): seq<string>
  {
    if sk.jsonLd.Some? then JsonLdLines(sk.jsonLd.value) else []
  }

  function ScriptSection(sk: Skeleton): seq<string>
  {
    if sk.scripts.Some? then ScriptLines(sk.scripts.value) else []
  }

  /** Every generated head line, section by section, in the order `build` pushes them. */
  function HeadLines(sk: Skeleton): seq<string>
  {
    Leading(sk) + Basics(sk) + MetaSection(sk) + OgSection(sk) + TwitterSection(sk) + BaseSection(sk) +
    FaviconSection(sk) + LinkSection(sk) + JsonLdSection(sk) + ScriptSection(sk)
  }

  function Opening(sk: Skeleton): seq<string>
  {
    ["<!DOCTYPE html>", "<html lang=\"" + sk.lang + "\">", "<head>", "<title>" + sk.title + "</title>"]
  }

  function Closing(sk: Skeleton): seq<string>
  {
    ["</head>", "<body>", sk.contents, "</body>", "</html>"]
  }

  function Document(sk: Skeleton): seq<string>
  {
    Opening(sk) + HeadLines(sk) + Closing(sk)
  }

  /** The text `build` returns: the document's lines joined by line feeds. */
  function Render(sk: Skeleton): string
  {
    Join(Document(sk), "\n")
  }

  // ---- The imperative builder ----

  /** Appending to lines already extended. */
  lemma Regrouped(a: seq<string>, b: seq<string>, c: seq<string>)
    ensures a + b + c == a + (b + c)
  {
  }

  method AddMetas(lines: seq<string>, metas: seq<Meta>) returns (r: seq<string>)
    ensures r == lines + MetaLines(metas)
  {
    r := lines;
    for i := 0 to |metas|
      invariant r == lines + MetaLines(metas[..i])
    {
      var m := metas[i];
      assert metas[..i + 1][..i] == metas[..i];
      ghost var before := MetaLines(metas[..i]);
      ghost var line := MetaLine(m);
      Regrouped(lines, before, if line.Some? then [line.value] else []);
      if Truthy(m.name) {
        r := r + [Tag("meta", [("name", m.name.value), ("content", m.content)])];
      } else if Truthy(m.property) {
        r := r + [Tag("meta", [("property", m.property.value), ("content", m.content)])];
      } else if Truthy(m.httpEquiv) {
        r := r + [Tag("meta", [("http-equiv", m.httpEquiv.value), ("content", m.content)])];
      }
    }
    assert metas[..|metas|] == metas;
  }

  method AddFavicons(lines: seq<string>, favicons: seq<Favicon>) returns (r: seq<string>)
    ensures r == lines + FaviconLines(favicons)
  {
    r := lines;
    for i := 0 to |favicons|
      invariant r == lines + FaviconLines(favicons[..i])
    {
      assert favicons[..i + 1][..i] == favicons[..i];
      Regrouped(lines, FaviconLines(favicons[..i]), [Tag("link", FaviconAttrs(favicons[i]))]);
      r := r + [Tag("link", FaviconAttrs(favicons[i]))];
    }
    assert favicons[..|favicons|] == favicons;
  }

  method AddLinks(lines: seq<string>, links: seq<Link>) returns (r: seq<string>)
    ensures r == lines + LinkLines(links)
  {
    r := lines;
    for i := 0 to |links|
      invariant r == lines + LinkLines(links[..i])
    {
      assert links[..i + 1][..i] == links[..i];
      Regrouped(lines, LinkLines(links[..i]), [Tag("link", LinkAttrs(links[i]))]);
      r := r + [Tag("link", LinkAttrs(links[i]))];
    }
    assert links[..|links|] == links;
  }

  method AddJsonLd(lines: seq<string>, items: seq<Json.Json>) returns (r: seq<string>)
    ensures r == lines + JsonLdLines(items)
  {
    r := lines;
    for i := 0 to |items|
      invariant r == lines + JsonLdLines(items[..i])
    {
      assert items[..i + 1][..i] == items[..i];
      Regrouped(lines, JsonLdLines(items[..i]), [JsonLdLine(i, items[i])]);
      r := r + [JsonLdLine(i, items[i])];
    }
    assert items[..|items|] == items;
  }

  /** The `attrs` array of one script, pushed in the fixed order. */
  method ScriptAttributes(s: Script) returns (attrs: seq<string>)
    ensures attrs == ScriptAttrs(s)
  {
    attrs := PushLoadingAttrs([], s);
    attrs := PushSecurityAttrs(attrs, s);
  }

  method PushLoadingAttrs(attrs: seq<string>, s: Script) returns (r: seq<string>)
    ensures r == attrs + LoadingAttrs(s)
  {
    r := attrs;
    if Truthy(s.src) { r := r + [Quoted("src", s.src.value)]; }
    if Truthy(s.mediaType) { r := r + [Quoted("type", s.mediaType.value)]; }
    if s.async { r := r + ["async"]; }
    if s.defer { r := r + ["defer"]; }
  }

  method PushSecurityAttrs(attrs: seq<string>, s: Script) returns (r: seq<string>)
    ensures r == attrs + SecurityAttrs(s)
  {
    r := attrs;
    if Truthy(s.integrity) { r := r + [Quoted("integrity", s.integrity.value)]; }
    if Truthy(s.crossorigin) { r := r + [Quoted("crossorigin", s.crossorigin.value)]; }
    if Truthy(s.referrerpolicy) { r := r + [Quoted("referrerpolicy", s.referrerpolicy.value)]; }
    if s.nomodule { r := r + ["nomodule"]; }
  }

  method AddScripts(lines: seq<string>, scripts: seq<Script>) returns (r: seq<string>)
    ensures r == lines + ScriptLines(scripts)
  {
    r := lines;
    for i := 0 to |scripts|
      invariant r == lines + ScriptLines(scripts[..i])
    {
      var s := scripts[i];
      assert scripts[..i + 1][..i] == scripts[..i];
      Regrouped(lines, ScriptLines(scripts[..i]), [ScriptLine(s)]);
      var attrs := ScriptAttributes(s);
      if Truthy(s.content) {
        r := r + ["<script " + Join(attrs, " ") + ">" + s.content.value + "</script>"];
      } else {
        r := r + ["<script " + Join(attrs, " ") + "></script>"];
      }
    }
    assert scripts[..|scripts|] == scripts;
  }

  /** The tags for the fixed fields, from charset through twitter and base. */
  method AddFixed(sk: Skeleton) returns (lines: seq<string>)
    ensures lines == Leading(sk) + Basics(sk)
  {
    lines := [Tag("meta", [("charset", sk.charset.GetOr(DefaultCharset))])];
    lines := lines + [Tag("meta", [("name", "viewport"), ("content", sk.viewport.GetOr(DefaultViewport))])];
    lines := lines + NamedMeta(sk.description, "description");
    lines := lines + KeywordLines(sk.keywords);
    lines := lines + NamedMeta(sk.author, "author");
    lines := lines + NamedMeta(sk.robots, "robots");
    lines := lines + CanonicalLines(sk.canonical);
  }

  /** Custom metas, then the Open Graph, Twitter card and base tags. */
  method AddTagged(lines: seq<string>, sk: Skeleton) returns (r: seq<string>)
    ensures r == lines + MetaSection(sk) + OgSection(sk) + TwitterSection(sk) + BaseSection(sk)
  {
    r := lines;
    if sk.metas.Some? {
      r := AddMetas(r, sk.metas.value);
    }
    ghost var m := r;
    if sk.og.Some? {
      r := r + OgLines(sk.og.value);
    }
    ghost var o := r;
    if sk.twitter.Some? {
      r := r + TwitterLines(sk.twitter.value);
    }
    ghost var t := r;
    if sk.base.Some? {
      r := r + [BaseLine(sk.base.value)];
    }
    assert m == lines + MetaSection(sk) && o == m + OgSection(sk) && t == o + TwitterSection(sk) && r == t + BaseSection(sk);
  }

  /** The four list sections: favicons, links, structured data, scripts. */
  method AddLists(lines: seq<string>, sk: Skeleton) returns (r: seq<string>)
    ensures r == lines + FaviconSection(sk) + LinkSection(sk) + JsonLdSection(sk) + ScriptSection(sk)
  {
    r := lines;
    if sk.favicons.Some? {
      r := AddFavicons(r, sk.favicons.value);
    }
    ghost var f := r;
    if sk.links.Some? {
      r := AddLinks(r, sk.links.value);
    }
    ghost var l := r;
    if sk.jsonLd.Some? {
      r := AddJsonLd(r, sk.jsonLd.value);
    }
    ghost var j := r;
    if sk.scripts.Some? {
      r := AddScripts(r, sk.scripts.value);
    }
    assert f == lines + FaviconSection(sk) && l == f + LinkSection(sk) && j == l + JsonLdSection(sk) && r == j + ScriptSection(sk);
  }

  /** `HTML.build(sk)`. */
  method Build(sk: Skeleton) returns (html: string)
    ensures html == Render(sk)
  {
    var lines := AddFixed(sk);
    lines := AddTagged(lines, sk);
    lines := AddLists(lines, sk);
    html := Join(Opening(sk) + lines + Closing(sk), "\n");
  }

  // ---- Properties ----

  /** The charset and viewport tags open the head, right after the title; undefined ones take their defaults. */
  lemma LeadingFirst(sk: Skeleton)
    ensures |Document(sk)| >= 11
    ensures Document(sk)[4] == Tag("meta", [("charset", if sk.charset.Some? then sk.charset.value else DefaultCharset)])
    ensures Document(sk)[5] == Tag("meta", [("name", "viewport"), ("content", if sk.viewport.Some? then sk.viewport.value else DefaultViewport)])
  {
    var lead := Leading(sk);
    var acc := lead + Basics(sk) + MetaSection(sk) + OgSection(sk);
    assert acc[0] == lead[0] && acc[1] == lead[1];
    acc := acc + TwitterSection(sk) + BaseSection(sk) + FaviconSection(sk);
    assert acc[0] == lead[0] && acc[1] == lead[1];
    acc := acc + LinkSection(sk) + JsonLdSection(sk) + ScriptSection(sk);
    assert acc == HeadLines(sk);
    assert Document(sk)[4] == acc[0] && Document(sk)[5] == acc[1];
  }

  /** The charset tag as text. */
  lemma CharsetTagText(charset: string)
    ensures Tag("meta", [("charset", charset)]) == "<meta charset=\"" + charset + "\">"
  {
    var attr := "charset" + "=\"" + charset + "\"";
    assert AttrTexts([("charset", charset)]) == [attr] by {
      assert [("charset", charset)][..0] == [];
    }
    assert Join([attr], " ") == attr;
  }

  /** With no charset given, the first head tag declares UTF-8. */
  lemma DefaultCharsetTag(sk: Skeleton)
    requires sk.charset.None?
    ensures Document(sk)[4] == "<meta charset=\"UTF-8\">"
  {
    LeadingFirst(sk);
    CharsetTagText(DefaultCharset);
  }

  /** The document is the fixed opening, the head lines, then the fixed closing. */
  lemma DocumentFrame(sk: Skeleton)
    ensures var n := |HeadLines(sk)|;
      |Document(sk)| == n + 9 &&
      Document(sk)[..4] == Opening(sk) && Document(sk)[4..4 + n] == HeadLines(sk) && Document(sk)[4 + n..] == Closing(sk)
  {
  }

  /** When no line holds a line feed, splitting the rendered text at line feeds gives back the document's lines. */
  lemma RenderReadsBack(sk: Skeleton)
    requires forall k :: 0 <= k < |Document(sk)| ==> '\n' !in Document(sk)[k]
    ensures Split(Render(sk), '\n') == Document(sk)
  {
    SplitJoin(Document(sk), '\n');
  }

  /** A skeleton with its falsy top-level optional fields removed. */
  function Cleaned(sk: Skeleton): Skeleton
  {
    sk.(description := if Truthy(sk.description) then sk.description else None,
        keywords := if sk.keywords.Some? && |sk.keywords.value| > 0 then sk.keywords else None,
        author := if Truthy(sk.author) then sk.author else None,
        robots := if Truthy(sk.robots) then sk.robots else None,
        canonical := if Truthy(sk.canonical) then sk.canonical else None)
  }

  /** An empty description, keyword list, author, robots or canonical emits what an undefined one does. */
  lemma FalsyIsAbsent(sk: Skeleton)
    ensures HeadLines(sk) == HeadLines(Cleaned(sk))
  {
  }

  /** Every basic tag is a head line. */
  lemma BasicsInHead(sk: Skeleton, x: string)
    requires x in Basics(sk)
    ensures x in HeadLines(sk)
  {
    var acc := Leading(sk) + Basics(sk);
    assert x in acc;
    acc := acc + MetaSection(sk) + OgSection(sk);
    assert x in acc;
    acc := acc + TwitterSection(sk) + BaseSection(sk);
    assert x in acc;
    acc := acc + FaviconSection(sk) + LinkSection(sk);
    assert x in acc;
    acc := acc + JsonLdSection(sk) + ScriptSection(sk);
    assert acc == HeadLines(sk);
  }

  /** A truthy optional field emits its tag. */
  lemma TruthyEmitted(sk: Skeleton)
    ensures Truthy(sk.description) ==> Tag("meta", [("name", "description"), ("content", sk.description.value)]) in HeadLines(sk)
    ensures Truthy(sk.author) ==> Tag("meta", [("name", "author"), ("content", sk.author.value)]) in HeadLines(sk)
    ensures Truthy(sk.robots) ==> Tag("meta", [("name", "robots"), ("content", sk.robots.value)]) in HeadLines(sk)
    ensures Truthy(sk.canonical) ==> Tag("link", [("rel", "canonical"), ("href", sk.canonical.value)]) in HeadLines(sk)
    ensures sk.keywords.Some? && |sk.keywords.value| > 0 ==>
      Tag("meta", [("name", "keywords"), ("content", Join(sk.keywords.value, ", "))]) in HeadLines(sk)
  {
    forall x | x in Basics(sk)
      ensures x in HeadLines(sk)
    {
      BasicsInHead(sk, x);
    }
  }

  /** A name wins over a property and an http-equiv; a property wins over an http-equiv. */
  lemma MetaPrecedence(m: Meta, property: Option<string>, httpEquiv: Option<string>)
    ensures Truthy(m.name) ==> MetaLine(m) == MetaLine(m.(property := property, httpEquiv := httpEquiv))
    ensures !Truthy(m.name) && Truthy(m.property) ==> MetaLine(m) == MetaLine(m.(httpEquiv := httpEquiv))
    ensures MetaLine(m).None? <==> !Truthy(m.name) && !Truthy(m.property) && !Truthy(m.httpEquiv)
  {
  }

  /** Entries with neither name, property nor http-equiv are skipped. */
  predicate HasKey(m: Meta)
  {
    Truthy(m.name) || Truthy(m.property) || Truthy(m.httpEquiv)
  }

  function KeyedCount(metas: seq<Meta>): nat
  {
    if metas == [] then 0 else KeyedCount(metas[..|metas| - 1]) + (if HasKey(metas[|metas| - 1]) then 1 else 0)
  }

  /** One line per entry that has a key. */
  lemma {:induction false} MetaCount(metas: seq<Meta>)
    ensures |MetaLines(metas)| == KeyedCount(metas)
  {
    if metas != [] {
      MetaCount(metas[..|metas| - 1]);
      MetaPrecedence(metas[|metas| - 1], None, None);
    }
  }

  /** The structured-data script at position `i` is numbered `i + 1`. */
  lemma {:induction false} JsonLdNumbered(items: seq<Json.Json>)
    ensures |JsonLdLines(items)| == |items|
    ensures forall i :: 0 <= i < |items| ==> JsonLdLines(items)[i] == JsonLdLine(i, items[i])
  {
    if items != [] {
      var init := items[..|items| - 1];
      JsonLdNumbered(init);
      forall i | 0 <= i < |init|
        ensures items[i] == init[i]
      {
      }
    }
  }

  /** A script's inline content sits between its opening and closing tags; without content they are adjacent. */
  lemma ScriptContentBetweenTags(s: Script)
    ensures ScriptLine(s) == "<script " + Join(ScriptAttrs(s), " ") + ">" + (if Truthy(s.content) then s.content.value else "") + "</script>"
  {
    var head := "<script " + Join(ScriptAttrs(s), " ") + ">";
    assert head + "" == head;
  }

  /** Script attributes keep their fixed order: a source first, a nomodule flag last, values written verbatim. */
  lemma ScriptAttrOrder(s: Script)
    ensures Truthy(s.src) ==> ScriptAttrs(s)[0] == "src=\"" + s.src.value + "\""
    ensures s.nomodule ==> ScriptAttrs(s)[|ScriptAttrs(s)| - 1] == "nomodule"
    ensures (!Truthy(s.src) && !Truthy(s.mediaType) && !s.async && !s.defer && !Truthy(s.integrity) &&
             !Truthy(s.crossorigin) && !Truthy(s.referrerpolicy) && !s.nomodule) ==> ScriptAttrs(s) == []
  {
  }
}
