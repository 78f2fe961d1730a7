// The three string utilities of src/utils: path joining, trimmed text
// comparison and capitalisation.

module PathJoin {
  import opened Wrappers
  import opened Strings

  /** Removes the `^\/+` part of `replace(/^\/+|\/+$/g, "")`. */
  function StripLeadingSlashes(s: string): (r: string)
    ensures |r| <= |s| && r == s[|s| - |r|..]
    ensures |r| > 0 ==> r[0] != '/'
    ensures forall i :: 0 <= i < |s| - |r| ==> s[i] == '/'
  {
    if |s| > 0 && s[0] == '/' then StripLeadingSlashes(s[1..]) else s
  }

  /** Removes the `\/+$` part of `replace(/^\/+|\/+$/g, "")`. */
  function StripTrailingSlashes(s: string): (r: string)
    ensures |r| <= |s| && r == s[..|r|]
    ensures |r| > 0 ==> r[|r| - 1] != '/'
    ensures forall i :: |r| <= i < |s| ==> s[i] == '/'
  {
    if |s| > 0 && s[|s| - 1] == '/' then StripTrailingSlashes(s[..|s| - 1]) else s
  }

  function StripSlashes(s: string): (r: string)
  {
    StripTrailingSlashes(StripLeadingSlashes(s))
  }

  /** A segment that survives the first filter: defined, and not blank after trimming. */
  predicate Survives(segment: Option<string>)
  {
    segment.Some? && Trim(segment.value) != ""
  }

  /** First `filter`: drop undefined, null and white-space-only segments. */
  function DefinedSegments(segments: seq<Option<string>>): (r: seq<string>)
    ensures |r| <= |segments|
  {
    if segments == [] then []
    else (if Survives(segments[0]) then [segments[0].value] else []) + DefinedSegments(segments[1..])
  }

  /** The `map` step. */
  function StrippedSegments(segments: seq<string>): (r: seq<string>)
    ensures |r| == |segments|
    ensures forall k :: 0 <= k < |r| ==> r[k] == StripSlashes(segments[k])
  {
    if segments == [] then [] else [StripSlashes(segments[0])] + StrippedSegments(segments[1..])
  }

  /** Second `filter`: drop segments that became empty. */
  function NonEmptySegments(segments: seq<string>): (r: seq<string>)
    ensures |r| <= |segments|
    ensures forall k :: 0 <= k < |r| ==> r[k] in segments && r[k] != ""
  {
    if segments == [] then []
    else (if segments[0] != "" then [segments[0]] else []) + NonEmptySegments(segments[1..])
  }

  /** Spread arguments that are all strings (`joinPathSegments(...parts)`). */
  function AllDefined(parts: seq<string>): (r: seq<Option<string>>)
    ensures |r| == |parts|
    ensures forall k :: 0 <= k < |parts| ==> r[k] == Some(parts[k])
  {
    if parts == [] then [] else [Some(parts[0])] + AllDefined(parts[1..])
  }

  /** The segments that end up in the joined path, in argument order. */
  function Kept(segments: seq<Option<string>>): seq<string>
  {
    NonEmptySegments(StrippedSegments(DefinedSegments(segments)))
  }

  /** `joinPathSegments(...segments)` (src/utils/joinPathSegments.ts). */
  function JoinPathSegments(segments: seq<Option<string>>): (r: string)
    ensures |r| >= 1 && r[0] == '/'
  {
    "/" + Join(Kept(segments), "/")
  }

  /** A segment as it can appear between two separators of a joined path. */
  predicate Clean(p: string)
  {
    |p| > 0 && p[0] != '/' && p[|p| - 1] != '/'
  }

  predicate NoDoubleSlash(s: string)
  {
    forall i :: 0 <= i < |s| - 1 ==> !(s[i] == '/' && s[i + 1] == '/')
  }

  lemma StripSlashesClean(s: string)
    ensures StripSlashes(s) != "" ==> Clean(StripSlashes(s))
  {
  }

  lemma {:induction false} KeptAreClean(segments: seq<Option<string>>)
    ensures forall k :: 0 <= k < |Kept(segments)| ==> Clean(Kept(segments)[k])
  {
    forall k | 0 <= k < |Kept(segments)| ensures Clean(Kept(segments)[k]) {
      var p := Kept(segments)[k];
      var stripped := StrippedSegments(DefinedSegments(segments));
      assert p in stripped && p != "";
      var j :| 0 <= j < |stripped| && stripped[j] == p;
      StripSlashesClean(DefinedSegments(segments)[j]);
    }
  }

  lemma {:induction false} JoinClean(parts: seq<string>)
    requires |parts| >= 1
    requires forall k :: 0 <= k < |parts| ==> Clean(parts[k])
    ensures Clean(Join(parts, "/"))
    ensures Join(parts, "/")[0] == parts[0][0]
  {
    if |parts| > 1 {
      JoinClean(parts[1..]);
    }
  }

  lemma {:induction false} JoinNoDoubleSlash(parts: seq<string>)
    requires forall k :: 0 <= k < |parts| ==> Clean(parts[k]) && NoDoubleSlash(parts[k])
    ensures NoDoubleSlash(Join(parts, "/"))
  {
    if |parts| > 1 {
      JoinNoDoubleSlash(parts[1..]);
      JoinClean(parts[1..]);
      var a, b := parts[0], Join(parts[1..], "/");
      var s := a + "/" + b;
      forall i | 0 <= i < |s| - 1 ensures !(s[i] == '/' && s[i + 1] == '/') {
        if i < |a| - 1 {
          assert s[i] == a[i] && s[i + 1] == a[i + 1];
        } else if i == |a| - 1 {
          assert s[i] == a[|a| - 1];
        } else if i == |a| {
          assert s[i + 1] == b[0];
        } else {
          assert s[i] == b[i - |a| - 1] && s[i + 1] == b[i - |a|];
        }
      }
    }
  }

  /** The result is exactly "/" when no segment survives the two filters. */
  lemma RootIffNothingKept(segments: seq<Option<string>>)
    ensures JoinPathSegments(segments) == "/" <==> Kept(segments) == []
  {
    if Kept(segments) != [] {
      KeptAreClean(segments);
      JoinClean(Kept(segments));
    }
  }

  /** Only "/" itself ends in a slash. */
  lemma NoTrailingSlash(segments: seq<Option<string>>)
    ensures var r := JoinPathSegments(segments);
            r != "/" ==> r[|r| - 1] != '/'
  {
    if Kept(segments) != [] {
      KeptAreClean(segments);
      JoinClean(Kept(segments));
    }
  }

  /** Segment boundaries never produce "//": a double slash can only come from inside a kept segment. */
  lemma BoundariesNoDoubleSlash(segments: seq<Option<string>>)
    requires forall k :: 0 <= k < |Kept(segments)| ==> NoDoubleSlash(Kept(segments)[k])
    ensures NoDoubleSlash(JoinPathSegments(segments))
  {
    var parts := Kept(segments);
    KeptAreClean(segments);
    JoinNoDoubleSlash(parts);
    if parts != [] {
      JoinClean(parts);
      var r := JoinPathSegments(segments);
      assert r[1] == parts[0][0];
      forall i | 0 <= i < |r| - 1 ensures !(r[i] == '/' && r[i + 1] == '/') {
        if i > 0 {
          assert r[i] == Join(parts, "/")[i - 1];
        }
      }
    }
  }

  lemma HasNonSpaceNotBlank(s: string, i: int)
    requires 0 <= i < |s| && !IsSpace(s[i])
    ensures Trim(s) != ""
  {
    TrimEmptyIffBlank(s);
  }

  /** Joining a joined path again changes nothing. */
  lemma Idempotent(segments: seq<Option<string>>)
    ensures JoinPathSegments([Some(JoinPathSegments(segments))]) == JoinPathSegments(segments)
  {
    KeptOfJoined(segments);
  }

  /** A joined path, passed again as one segment, keeps nothing or exactly its own text after the leading "/". */
  lemma KeptOfJoined(segments: seq<Option<string>>)
    ensures Kept(segments) == [] ==> Kept([Some(JoinPathSegments(segments))]) == []
    ensures Kept(segments) != [] ==> Kept([Some(JoinPathSegments(segments))]) == [Join(Kept(segments), "/")]
  {
    var r := JoinPathSegments(segments);
    HasNonSpaceNotBlank(r, 0);
    assert DefinedSegments([Some(r)]) == [r];
    var parts := Kept(segments);
    if parts == [] {
      assert StripSlashes(r) == "";
      assert Kept([Some(r)]) == [];
    } else {
      KeptAreClean(segments);
      JoinClean(parts);
      var j := Join(parts, "/");
      assert r[1..] == j;
      assert StripLeadingSlashes(r) == StripLeadingSlashes(j);
      assert StripSlashes(r) == j;
      assert Kept([Some(r)]) == [j];
    }
  }

  /**
   * A joined path passed as the last argument of another join is as good as
   * its own arguments: `joinPathSegments(a, joinPathSegments(b, c))` is
   * `joinPathSegments(a, b, c)`.
   */
  lemma NestedJoin(outer: seq<Option<string>>, inner: seq<Option<string>>)
    ensures JoinPathSegments(outer + [Some(JoinPathSegments(inner))]) == JoinPathSegments(outer + inner)
  {
    KeptConcat(outer, [Some(JoinPathSegments(inner))]);
    KeptConcat(outer, inner);
    KeptOfJoined(inner);
    if Kept(inner) == [] {
      assert Kept(outer) + [] == Kept(outer);
    } else {
      JoinFlatten(Kept(outer), Kept(inner), "/");
    }
  }

  lemma {:induction false} KeptConcat(xs: seq<Option<string>>, ys: seq<Option<string>>)
    ensures Kept(xs + ys) == Kept(xs) + Kept(ys)
  {
    DefinedConcat(xs, ys);
    StrippedConcat(DefinedSegments(xs), DefinedSegments(ys));
    NonEmptyConcat(StrippedSegments(DefinedSegments(xs)), StrippedSegments(DefinedSegments(ys)));
  }

  lemma {:induction false} DefinedConcat(xs: seq<Option<string>>, ys: seq<Option<string>>)
    ensures DefinedSegments(xs + ys) == DefinedSegments(xs) + DefinedSegments(ys)
  {
    if xs != [] {
      DefinedConcat(xs[1..], ys);
      assert (xs + ys)[1..] == xs[1..] + ys;
    } else {
      assert xs + ys == ys;
    }
  }

  lemma {:induction false} StrippedConcat(xs: seq<string>, ys: seq<string>)
    ensures StrippedSegments(xs + ys) == StrippedSegments(xs) + StrippedSegments(ys)
  {
  }

  lemma {:induction false} NonEmptyConcat(xs: seq<string>, ys: seq<string>)
    ensures NonEmptySegments(xs + ys) == NonEmptySegments(xs) + NonEmptySegments(ys)
  {
    if xs != [] {
      NonEmptyConcat(xs[1..], ys);
      assert (xs + ys)[1..] == xs[1..] + ys;
    } else {
      assert xs + ys == ys;
    }
  }

  /** An undefined or blank argument may be inserted anywhere without effect. */
  lemma DroppedSegmentIgnored(xs: seq<Option<string>>, blank: Option<string>, ys: seq<Option<string>>)
    requires !Survives(blank)
    ensures JoinPathSegments(xs + [blank] + ys) == JoinPathSegments(xs + ys)
  {
    calc {
      Kept(xs + [blank] + ys);
      { KeptConcat(xs + [blank], ys); }
      Kept(xs + [blank]) + Kept(ys);
      { KeptConcat(xs, [blank]); NothingKept(blank); assert Kept(xs) + [] == Kept(xs); }
      Kept(xs) + Kept(ys);
      { KeptConcat(xs, ys); }
      Kept(xs + ys);
    }
  }

  lemma NothingKept(blank: Option<string>)
    requires !Survives(blank)
    ensures Kept([blank]) == []
  {
    assert DefinedSegments([blank]) == [] by {
      assert [blank][1..] == [];
    }
  }

  /**
   * Two clean, non-blank segments are joined in order and untrimmed: white
   * space inside a kept segment survives.
   */
  lemma TwoSegmentsInOrder(a: string, b: string, i: int, j: int)
    requires Clean(a) && Clean(b)
    requires 0 <= i < |a| && !IsSpace(a[i]) && 0 <= j < |b| && !IsSpace(b[j])
    ensures Kept([Some(a), Some(b)]) == [a, b]
    ensures JoinPathSegments([Some(a), Some(b)]) == "/" + Join([a, b], "/")
    ensures Join([a, b], "/") == a + "/" + b
  {
    KeptTwo(a, b, i, j);
    JoinTwo(a, b);
  }

  lemma KeptTwo(a: string, b: string, i: int, j: int)
    requires Clean(a) && Clean(b)
    requires 0 <= i < |a| && !IsSpace(a[i]) && 0 <= j < |b| && !IsSpace(b[j])
    ensures Kept([Some(a), Some(b)]) == [a, b]
  {
    calc {
      Kept([Some(a), Some(b)]);
      { assert [Some(a), Some(b)] == [Some(a)] + [Some(b)]; }
      Kept([Some(a)] + [Some(b)]);
      { KeptConcat([Some(a)], [Some(b)]); }
      Kept([Some(a)]) + Kept([Some(b)]);
      { KeptClean(a, i); KeptClean(b, j); }
      [a, b];
    }
  }

  lemma JoinTwo(a: string, b: string)
    ensures Join([a, b], "/") == a + "/" + b
  {
    assert [a, b][1..] == [b];
  }

  /** A clean, non-blank segment is kept verbatim. */
  lemma KeptClean(a: string, i: int)
    requires Clean(a) && 0 <= i < |a| && !IsSpace(a[i])
    ensures Kept([Some(a)]) == [a]
  {
    HasNonSpaceNotBlank(a, i);
    assert DefinedSegments([Some(a)]) == [a] by {
      assert [Some(a)][1..] == [];
    }
    assert StripSlashes(a) == a;
    assert StrippedSegments([a]) == [a];
    assert NonEmptySegments([a]) == [a] by {
      assert [a][1..] == [];
    }
  }

  /** Segments that are clean and start with a visible character pass the filters unchanged. */
  lemma {:induction false} KeptVerbatim(parts: seq<string>)
    requires forall k :: 0 <= k < |parts| ==> Clean(parts[k]) && !IsSpace(parts[k][0])
    ensures Kept(AllDefined(parts)) == parts
  {
    if parts != [] {
      KeptVerbatim(parts[1..]);
      assert AllDefined(parts) == [Some(parts[0])] + AllDefined(parts[1..]);
      KeptConcat([Some(parts[0])], AllDefined(parts[1..]));
      KeptClean(parts[0], 0);
      assert [parts[0]] + parts[1..] == parts;
    }
  }

  /**
   * The parts of a split absolute path ("" first, then clean segments) join
   * back to "/" followed by the segments.
   */
  lemma JoinAfterRoot(parts: seq<string>)
    requires |parts| >= 1 && parts[0] == ""
    requires forall k :: 1 <= k < |parts| ==> Clean(parts[k]) && !IsSpace(parts[k][0])
    ensures JoinPathSegments(AllDefined(parts)) == "/" + Join(parts[1..], "/")
  {
    assert parts == [""] + parts[1..];
    KeptAfterRoot(parts[1..]);
  }

  lemma KeptAfterRoot(rest: seq<string>)
    requires forall k :: 0 <= k < |rest| ==> Clean(rest[k]) && !IsSpace(rest[k][0])
    ensures Kept(AllDefined([""] + rest)) == rest
  {
    calc {
      Kept(AllDefined([""] + rest));
      { assert AllDefined([""] + rest) == [Some("")] + AllDefined(rest); }
      Kept([Some("")] + AllDefined(rest));
      { KeptConcat([Some("")], AllDefined(rest)); }
      Kept([Some("")]) + Kept(AllDefined(rest));
      { NothingKept(Some("")); KeptVerbatim(rest); }
      [] + rest;
    }
    assert [] + rest == rest;
  }

  lemma JoinThree(a: string, b: string, c: string)
    ensures Join([a, b, c], "/") == a + "/" + b + "/" + c
  {
    assert [a, b, c][1..] == [b, c];
    JoinTwo(b, c);
  }

  /** An empty prefix leaves the path as if it were joined alone. */
  lemma EmptyPrefix(path: Option<string>)
    ensures JoinPathSegments([Some(""), path]) == JoinPathSegments([path])
  {
    DroppedSegmentIgnored([], Some(""), [path]);
  }
}

module TextEqual {
  import opened Strings

  /** The optional `modifier` argument: absent, "upper" or "lower". */
  datatype CaseMode = Exact | Upper | Lower

  /** `textIsEqual(source, target, modifier)` (src/utils/textIsEqual.ts). */
  function TextIsEqual(source: string, target: string, mode: CaseMode): bool
  {
    var s, t := Trim(source), Trim(target);
    match mode
    case Upper => ToUpper(s) == ToUpper(t)
    case Lower => ToUpper(s) == ToUpper(t)
    case Exact => s == t
  }

  predicate SameIgnoringCase(s: string, t: string)
  {
    |s| == |t| && forall i :: 0 <= i < |s| ==> UpperChar(s[i]) == UpperChar(t[i])
  }

  /** Case-insensitive comparison is character-by-character equality of the trimmed texts up to ASCII case. */
  lemma UpperIsCaseInsensitive(source: string, target: string)
    ensures TextIsEqual(source, target, Upper) <==> SameIgnoringCase(Trim(source), Trim(target))
  {
    var s, t := Trim(source), Trim(target);
    if SameIgnoringCase(s, t) {
      assert ToUpper(s) == ToUpper(t);
    }
  }

  /** "lower" is the same relation as "upper". */
  lemma LowerSameAsUpper(source: string, target: string)
    ensures TextIsEqual(source, target, Lower) == TextIsEqual(source, target, Upper)
  {
  }

  lemma ExactImpliesUpper(source: string, target: string)
    ensures TextIsEqual(source, target, Exact) ==> TextIsEqual(source, target, Upper)
  {
  }

  /** Every mode is reflexive, symmetric and transitive. */
  lemma Equivalence(a: string, b: string, c: string, mode: CaseMode)
    ensures TextIsEqual(a, a, mode)
    ensures TextIsEqual(a, b, mode) == TextIsEqual(b, a, mode)
    ensures TextIsEqual(a, b, mode) && TextIsEqual(b, c, mode) ==> TextIsEqual(a, c, mode)
  {
  }

  /** Texts whose trimmed lengths differ are unequal in every mode. */
  lemma LengthMismatch(source: string, target: string, mode: CaseMode)
    requires |Trim(source)| != |Trim(target)|
    ensures !TextIsEqual(source, target, mode)
  {
  }

  /** Surrounding white space is ignored by every mode. */
  lemma TrimmedFirst(source: string, target: string, mode: CaseMode)
    ensures TextIsEqual(source, target, mode) == TextIsEqual(Trim(source), Trim(target), mode)
  {
    TrimIdempotent(source);
    TrimIdempotent(target);
  }

  lemma TrimIdempotent(s: string)
    ensures Trim(Trim(s)) == Trim(s)
  {
    var t := Trim(s);
    if t != [] {
      TrimNoSpaceEnds(t);
    }
  }
}

module StrCapitalize {
  import opened Strings

  /** The mapped part: `part.charAt(0).toLocaleUpperCase() + input.slice(1)`. */
  function CapitalizePart(part: string, input: string): string
    requires |input| > 0
  {
    (if |part| > 0 then [UpperChar(part[0])] else "") + input[1..]
  }

  function CapitalizeParts(parts: seq<string>, input: string): (r: seq<string>)
    requires |input| > 0
    ensures |r| == |parts|
    ensures forall k :: 0 <= k < |parts| ==> r[k] == CapitalizePart(parts[k], input)
  {
    if parts == [] then [] else [CapitalizePart(parts[0], input)] + CapitalizeParts(parts[1..], input)
  }

  /**
   * `strCapitalize(input)` as written (src/utils/strCapitalize.ts): every
   * space-separated part contributes its upper-cased first character
   * followed by the tail of the WHOLE input.
   */
  function StrCapitalize(input: string): string
  {
    if |input| > 0 then Join(CapitalizeParts(Split(input, ' '), input), " ") else input
  }

  /** Per-word capitalisation, which is what the helper is used for. */
  function CapitalizeWord(w: string): string
  {
    if |w| > 0 then [UpperChar(w[0])] + w[1..] else w
  }

  function CapitalizeWords(words: seq<string>): (r: seq<string>)
    ensures |r| == |words|
    ensures forall k :: 0 <= k < |words| ==> r[k] == CapitalizeWord(words[k])
  {
    if words == [] then [] else [CapitalizeWord(words[0])] + CapitalizeWords(words[1..])
  }

  /** Corrected `strCapitalize`: each space-separated word capitalised on its own. */
  function StrCapitalizeWords(input: string): (r: string)
    ensures |r| == |input|
    ensures forall i :: 0 <= i < |input| ==> r[i] == (if i == 0 || input[i - 1] == ' ' then UpperChar(input[i]) else input[i])
  {
    CapitalizeWordsCharwise(input);
    if |input| > 0 then Join(CapitalizeWords(Split(input, ' ')), " ") else input
  }

  /** Character-level description of the corrected function. */
  function CapitalizeFrom(s: string, atStart: bool): (r: string)
    ensures |r| == |s|
    ensures forall i :: 0 <= i < |s| ==> r[i] == (if (if i == 0 then atStart else s[i - 1] == ' ') then UpperChar(s[i]) else s[i])
  {
    if s == [] then []
    else [if atStart then UpperChar(s[0]) else s[0]] + CapitalizeFrom(s[1..], s[0] == ' ')
  }

  lemma {:induction false} CapitalizeWordsCharwise(input: string)
    ensures |input| > 0 ==> Join(CapitalizeWords(Split(input, ' ')), " ") == CapitalizeFrom(input, true)
  {
    if |input| > 0 {
      CharwiseFrom(input);
    }
  }

  lemma {:induction false} CharwiseFrom(s: string)
    ensures Join(CapitalizeWords(Split(s, ' ')), " ") == CapitalizeFrom(s, true)
  {
    if s != [] {
      CharwiseFrom(s[1..]);
      var rest := Split(s[1..], ' ');
      if s[0] == ' ' {
        assert Split(s, ' ') == [""] + rest;
        assert CapitalizeWords([""] + rest) == [""] + CapitalizeWords(rest);
        assert CapitalizeWords(rest) == CapitalizeWords([""] + rest)[1..];
        assert UpperChar(' ') == ' ';
      } else {
        var w := rest[0];
        assert Split(s, ' ') == [[s[0]] + w] + rest[1..];
        TailNotCapitalized(s[1..]);
        assert CapitalizeWord([s[0]] + w) == [UpperChar(s[0])] + w;
        var cw := CapitalizeWords([[s[0]] + w] + rest[1..]);
        assert cw[1..] == CapitalizeWords(rest[1..]);
        assert CapitalizeWords(rest) == [CapitalizeWord(w)] + CapitalizeWords(rest[1..]);
        if |rest| == 1 {
          assert Join(cw, " ") == [UpperChar(s[0])] + w;
        } else {
          assert Join(cw, " ") == [UpperChar(s[0])] + w + " " + Join(CapitalizeWords(rest[1..]), " ");
        }
      }
    }
  }

  /** Lower-level step: a tail not preceded by a space keeps its first word as is. */
  lemma {:induction false} TailNotCapitalized(t: string)
    ensures var rest := Split(t, ' ');
            var tail := CapitalizeWords(rest[1..]);
            CapitalizeFrom(t, false) == rest[0] + (if |rest| == 1 then "" else " " + Join(tail, " "))
  {
    var rest := Split(t, ' ');
    if t == [] {
    } else if t[0] == ' ' {
      CharwiseFrom(t[1..]);
      assert rest == [""] + Split(t[1..], ' ');
      assert rest[1..] == Split(t[1..], ' ');
      assert UpperChar(' ') == ' ';
    } else {
      TailNotCapitalized(t[1..]);
      var r2 := Split(t[1..], ' ');
      assert rest == [[t[0]] + r2[0]] + r2[1..];
      assert rest[1..] == r2[1..];
    }
  }

  /** The two definitions agree on a single word, which is how the cookie builders call it. */
  lemma AgreeOnSingleWord(w: string)
    requires ' ' !in w
    ensures StrCapitalize(w) == StrCapitalizeWords(w) == CapitalizeWord(w)
  {
    if |w| > 0 {
      SplitNoSep(w, ' ');
    }
  }

  /** On a single ASCII word the result is stable under a second application. */
  lemma SingleWordIdempotent(w: string)
    requires ' ' !in w
    ensures StrCapitalize(StrCapitalize(w)) == StrCapitalize(w)
  {
    AgreeOnSingleWord(w);
    var c := CapitalizeWord(w);
    if |w| > 0 {
      assert c[0] == UpperChar(w[0]) && c[1..] == w[1..];
      assert ' ' !in c by {
        assert UpperChar(w[0]) != ' ';
        assert forall k :: 1 <= k < |c| ==> c[k] == w[k];
      }
      AgreeOnSingleWord(c);
      assert CapitalizeWord(c) == [UpperChar(UpperChar(w[0]))] + c[1..];
    }
  }

  /** The as-written helper repeats the input's tail for every word: "ab cd" gives "Ab cd Cb cd". */
  lemma MultiWordRepeatsTail()
    ensures StrCapitalize("ab cd") == "Ab cd Cb cd"
    ensures StrCapitalizeWords("ab cd") == "Ab Cd"
  {
    SplitABCD();
    AsWrittenABCD();
    CorrectedABCD();
  }

  lemma SplitABCD()
    ensures Split("ab cd", ' ') == ["ab", "cd"]
  {
    SplitNoSep("cd", ' ');
    SplitAppend("ab", "cd", ' ');
    assert "ab" + [' '] + "cd" == "ab cd";
  }

  lemma AsWrittenABCD()
    ensures CapitalizeParts(["ab", "cd"], "ab cd") == ["Ab cd", "Cb cd"]
  {
    assert CapitalizePart("ab", "ab cd") == "Ab cd";
    assert CapitalizePart("cd", "ab cd") == "Cb cd";
  }

  lemma CorrectedABCD()
    ensures CapitalizeWords(["ab", "cd"]) == ["Ab", "Cd"]
  {
    assert CapitalizeWord("ab") == "Ab" && CapitalizeWord("cd") == "Cd";
  }

}
