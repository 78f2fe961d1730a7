// Shared vocabulary: optional values and the handful of JavaScript string
// primitives (trim, case mapping, split, join, includes) that the framework
// leans on everywhere. Case mapping is ASCII-only and trimming uses the ASCII
// white-space set; nothing in the modelled code depends on more than that.

module Wrappers {
  datatype Option<T> = None | Some(value: T)
  {
    function GetOr(default: T): T
    {
      if Some? then value else default
    }
  }
}

module Strings {
  import opened Wrappers


  predicate IsSpace(c: char)
  {
    c == ' ' || c == '\t' || c == '\n' || c == '\r' || c == '\U{000B}' || c == '\U{000C}'
  }

  /** `String.prototype.trimStart`. */
  function TrimStart(s: string): (r: string)
    ensures |r| <= |s| && r == s[|s| - |r|..]
    ensures |r| > 0 ==> !IsSpace(r[0])
    ensures forall i :: 0 <= i < |s| - |r| ==> IsSpace(s[i])
  {
    if |s| > 0 && IsSpace(s[0]) then TrimStart(s[1..]) else s
  }

  /** `String.prototype.trimEnd`. */
  function TrimEnd(s: string): (r: string)
    ensures |r| <= |s| && r == s[..|r|]
    ensures |r| > 0 ==> !IsSpace(r[|r| - 1])
    ensures forall i :: |r| <= i < |s| ==> IsSpace(s[i])
  {
    if |s| > 0 && IsSpace(s[|s| - 1]) then TrimEnd(s[..|s| - 1]) else s
  }

  /** `String.prototype.trim`. */
  function Trim(s: string): (r: string)
    ensures |r| <= |s|
    ensures |r| > 0 ==> !IsSpace(r[0]) && !IsSpace(r[|r| - 1])
  {
    TrimEnd(TrimStart(s))
  }

  predicate Blank(s: string)
  {
    forall i :: 0 <= i < |s| ==> IsSpace(s[i])
  }

  lemma TrimEmptyIffBlank(s: string)
    ensures Trim(s) == "" <==> Blank(s)
  {
  }

  lemma TrimNoSpaceEnds(s: string)
    requires |s| > 0 && !IsSpace(s[0]) && !IsSpace(s[|s| - 1])
    ensures Trim(s) == s
  {
  }

  function UpperChar(c: char): (r: char)
    ensures 'a' <= c <= 'z' ==> 'A' <= r <= 'Z'
    ensures !('a' <= c <= 'z') ==> r == c
  {
    if 'a' <= c <= 'z' then (c as int - 32) as char else c
  }

  function LowerChar(c: char): (r: char)
    ensures 'A' <= c <= 'Z' ==> 'a' <= r <= 'z'
    ensures !('A' <= c <= 'Z') ==> r == c
  {
    if 'A' <= c <= 'Z' then (c as int + 32) as char else c
  }

  /** `String.prototype.toUpperCase`, ASCII letters only. */
  function ToUpper(s: string): (r: string)
    ensures |r| == |s|
    ensures forall i :: 0 <= i < |s| ==> r[i] == UpperChar(s[i])
  {
    seq(|s|, i requires 0 <= i < |s| => UpperChar(s[i]))
  }

  /** `String.prototype.toLowerCase`, ASCII letters only. */
  function ToLower(s: string): (r: string)
    ensures |r| == |s|
    ensures forall i :: 0 <= i < |s| ==> r[i] == LowerChar(s[i])
  {
    seq(|s|, i requires 0 <= i < |s| => LowerChar(s[i]))
  }

  /**
   * `textIsDefined` / `strIsDefined`: a value that is present and not blank.
   * Neither helper is part of this model; this is the reading assumed for them.
   */
  predicate TextIsDefined(s: string)
  {
    Trim(s) != ""
  }

  predicate StartsWith(s: string, prefix: string)
  {
    |prefix| <= |s| && s[..|prefix|] == prefix
  }

  predicate EndsWith(s: string, suffix: string)
  {
    |suffix| <= |s| && s[|s| - |suffix|..] == suffix
  }

  /** `String.prototype.includes`. */
  predicate Contains(s: string, sub: string)
  {
    exists i {:trigger s[i..]} :: 0 <= i <= |s| - |sub| && s[i..][..|sub|] == sub
  }

  predicate HasChar(s: string, c: char)
  {
    c in s
  }

  /** `String.prototype.split` with a one-character separator. */
  function Split(s: string, sep: char): (r: seq<string>)
    ensures |r| >= 1
    ensures forall k :: 0 <= k < |r| ==> sep !in r[k]
  {
    if s == [] then [""]
    else
      var rest := Split(s[1..], sep);
      if s[0] == sep then [""] + rest else [[s[0]] + rest[0]] + rest[1..]
  }

  /** `Array.prototype.join`. */
  function Join(parts: seq<string>, sep: string): string
  {
    if |parts| == 0 then ""
    else if |parts| == 1 then parts[0]
    else parts[0] + sep + Join(parts[1..], sep)
  }

  lemma {:induction false} JoinSplit(s: string, sep: char)
    ensures Join(Split(s, sep), [sep]) == s
  {
    if s != [] {
      JoinSplit(s[1..], sep);
      var rest := Split(s[1..], sep);
      if s[0] == sep {
        assert Split(s, sep) == [""] + rest;
        assert ([""] + rest)[1..] == rest;
      } else {
        var r := [[s[0]] + rest[0]] + rest[1..];
        if |rest| == 1 {
          assert Join(r, [sep]) == [s[0]] + rest[0];
        } else {
          assert r[1..] == rest[1..];
          assert Join(rest, [sep]) == rest[0] + [sep] + Join(rest[1..], [sep]);
          assert Join(r, [sep]) == [s[0]] + rest[0] + [sep] + Join(rest[1..], [sep]);
        }
        assert s == [s[0]] + s[1..];
      }
    }
  }

  lemma {:induction false} SplitJoin(parts: seq<string>, sep: char)
    requires |parts| >= 1
    requires forall k :: 0 <= k < |parts| ==> sep !in parts[k]
    ensures Split(Join(parts, [sep]), sep) == parts
  {
    if |parts| == 1 {
      SplitNoSep(parts[0], sep);
    } else {
      SplitJoin(parts[1..], sep);
      SplitAppend(parts[0], Join(parts[1..], [sep]), sep);
      assert [parts[0]] + parts[1..] == parts;
    }
  }

  lemma {:induction false} SplitNoSep(s: string, sep: char)
    requires sep !in s
    ensures Split(s, sep) == [s]
  {
    if s != [] {
      SplitNoSep(s[1..], sep);
      assert [s[0]] + s[1..] == s;
    }
  }

  /** Splitting `a + sep + b` where `a` holds no separator. */
  lemma {:induction false} SplitAppend(a: string, b: string, sep: char)
    requires sep !in a
    ensures Split(a + [sep] + b, sep) == [a] + Split(b, sep)
  {
    if a == [] {
      assert [sep] + b == (a + [sep] + b);
      assert ([sep] + b)[1..] == b;
    } else {
      SplitAppend(a[1..], b, sep);
      assert (a + [sep] + b)[1..] == a[1..] + [sep] + b;
      assert [a[0]] + a[1..] == a;
    }
  }

  lemma {:induction false} JoinAppend(parts: seq<string>, last: string, sep: string)
    requires |parts| >= 1
    ensures Join(parts + [last], sep) == Join(parts, sep) + sep + last
  {
    if |parts| == 1 {
      assert (parts + [last])[1..] == [last];
    } else {
      assert (parts + [last])[1..] == parts[1..] + [last];
      JoinAppend(parts[1..], last, sep);
    }
  }

  /** Joining a joined list in last place is joining the flattened list. */
  lemma {:induction false} JoinFlatten(parts: seq<string>, inner: seq<string>, sep: string)
    requires |inner| >= 1
    ensures Join(parts + [Join(inner, sep)], sep) == Join(parts + inner, sep)
  {
    if parts == [] {
      assert parts + [Join(inner, sep)] == [Join(inner, sep)];
      assert parts + inner == inner;
    } else {
      assert (parts + [Join(inner, sep)])[1..] == parts[1..] + [Join(inner, sep)];
      assert (parts + inner)[1..] == parts[1..] + inner;
      JoinFlatten(parts[1..], inner, sep);
    }
  }

  /** Index of the first `c` in `s`, if any (`indexOf`). */
  function IndexOf(s: string, c: char): (r: Option<nat>)
    ensures r.None? <==> c !in s
    ensures r.Some? ==> r.value < |s| && s[r.value] == c && c !in s[..r.value]
  {
    if s == [] then None
    else if s[0] == c then Some(0)
    else
      var t := IndexOf(s[1..], c);
      if t.None? then None
      else
        assert s[..t.value + 1] == [s[0]] + s[1..][..t.value];
        Some(t.value + 1)
  }

  lemma {:induction false} IndexOfFirst(a: string, c: char, b: string)
    requires c !in a
    ensures IndexOf(a + [c] + b, c) == Some(|a|)
  {
    if a != [] {
      IndexOfFirst(a[1..], c, b);
      assert (a + [c] + b)[1..] == a[1..] + [c] + b;
    }
  }

  /** `strAfterMark(mark, s)`: the text after the first mark, or "" when there is none. */
  function AfterMark(mark: char, s: string): (r: string)
    ensures mark !in s ==> r == ""
  {
    match IndexOf(s, mark)
    case None => ""
    case Some(i) => s[i + 1..]
  }

  /** `strBeforeMark(mark, s)`: the text before the first mark, or all of it when there is none. */
  function BeforeMark(mark: char, s: string): (r: string)
    ensures mark !in r
  {
    match IndexOf(s, mark)
    case None => s
    case Some(i) => s[..i]
  }

  /** Around the first mark, the two helpers give back the two sides. */
  lemma MarkSides(a: string, mark: char, b: string)
    requires mark !in a
    ensures AfterMark(mark, a + [mark] + b) == b && BeforeMark(mark, a + [mark] + b) == a
  {
    IndexOfFirst(a, mark, b);
    assert (a + [mark] + b)[|a| + 1..] == b;
    assert (a + [mark] + b)[..|a|] == a;
  }

  function NatToString(n: nat): (r: string)
    ensures |r| >= 1
    ensures forall i :: 0 <= i < |r| ==> '0' <= r[i] <= '9'
  {
    if n < 10 then [DigitChar(n)] else NatToString(n / 10) + [DigitChar(n % 10)]
  }

  function DigitChar(d: nat): (c: char)
    requires d < 10
    ensures '0' <= c <= '9' && c as int - '0' as int == d
  {
    ('0' as int + d) as char
  }

  /** `String(n)` for an integer. */
  function IntToString(n: int): (r: string)
    ensures |r| >= 1
  {
    if n < 0 then "-" + NatToString(-n) else NatToString(n)
  }

  function DigitsValue(s: string): (n: nat)
    requires forall i :: 0 <= i < |s| ==> '0' <= s[i] <= '9'
  {
    if s == [] then 0 else DigitsValue(s[..|s| - 1]) * 10 + (s[|s| - 1] as int - '0' as int)
  }

  lemma {:induction false} NatToStringValue(n: nat)
    ensures DigitsValue(NatToString(n)) == n
  {
    if n >= 10 {
      NatToStringValue(n / 10);
      var r := NatToString(n);
      assert r[..|r| - 1] == NatToString(n / 10);
    }
  }
}

/**
 * `strSplit(mark, s)`, which is not part of this model, read as a split whose
 * parts are trimmed and whose empty parts are dropped, with the facts the
 * cookie readers need about it.
 */
module SplitParts {
  import opened Strings

  /** The parts trimmed, the empty ones dropped, in order. */
  function TrimmedParts(parts: seq<string>): seq<string>
  {
    if parts == [] then []
    else
      var t := Trim(parts[|parts| - 1]);
      TrimmedParts(parts[..|parts| - 1]) + (if t == "" then [] else [t])
  }

  lemma {:induction false} TrimmedClean(parts: seq<string>)
    ensures forall t :: t in TrimmedParts(parts) ==> t != "" && !IsSpace(t[0])
  {
    if parts != [] {
      TrimmedClean(parts[..|parts| - 1]);
    }
  }

  /** A name or value a client can send unchanged: non-empty, no separator, no surrounding space. */
  predicate Token(s: string)
  {
    s != "" && !IsSpace(s[0]) && !IsSpace(s[|s| - 1]) && ';' !in s && '=' !in s
  }

  /** The parts after the first with one leading space, as "; " leaves them. */
  function Spaced(parts: seq<string>): (r: seq<string>)
    requires |parts| >= 1
    ensures |r| == |parts| && r[0] == parts[0]
    ensures forall i :: 1 <= i < |r| ==> r[i] == " " + parts[i]
  {
    [parts[0]] + seq(|parts| - 1, i requires 0 <= i < |parts| - 1 => " " + parts[i + 1])
  }

  lemma {:induction false} JoinSpaced(parts: seq<string>)
    requires |parts| >= 1
    ensures Join(parts, "; ") == Join(Spaced(parts), ";")
  {
    if |parts| > 1 {
      var rest := parts[1..];
      JoinSpaced(rest);
      var s := Spaced(parts);
      assert s[1..][1..] == Spaced(rest)[1..];
      if |rest| == 1 {
        assert Join(s[1..], ";") == " " + rest[0];
      } else {
        assert Join(s[1..], ";") == s[1] + ";" + Join(s[1..][1..], ";");
        assert Join(Spaced(rest), ";") == rest[0] + ";" + Join(Spaced(rest)[1..], ";");
      }
      assert Join(s[1..], ";") == " " + Join(Spaced(rest), ";");
    }
  }

  lemma TrimToken(s: string)
    requires Token(s)
    ensures Trim(s) == s && Trim(" " + s) == s
  {
    TrimNoSpaceEnds(s);
    assert (" " + s)[1..] == s;
    assert TrimStart(" " + s) == TrimStart(s);
  }

  lemma TrimmedSnoc(parts: seq<string>, x: string)
    ensures TrimmedParts(parts + [x]) == TrimmedParts(parts) + (if Trim(x) == "" then [] else [Trim(x)])
  {
    assert (parts + [x])[..|parts|] == parts;
  }

  /** Two parts that trim to non-empty texts are kept, trimmed. */
  lemma TrimmedTwo(a: string, b: string)
    requires Trim(a) != "" && Trim(b) != ""
    ensures TrimmedParts([a, b]) == [Trim(a), Trim(b)]
  {
    TrimmedSnoc([], a);
    TrimmedSnoc([a], b);
    assert [] + [a] == [a] && [a] + [b] == [a, b];
  }

  /** `part` trims to the non-empty `clean`. */
  predicate TrimsTo(part: string, clean: string)
  {
    clean != "" && Trim(part) == clean
  }

  /** Each part trims to the matching non-empty text, stated part by part from the last. */
  predicate AllTrimTo(parts: seq<string>, clean: seq<string>)
  {
    |parts| == |clean| &&
    (parts == [] ||
     (AllTrimTo(parts[..|parts| - 1], clean[..|clean| - 1]) && TrimsTo(parts[|parts| - 1], clean[|clean| - 1])))
  }

  lemma {:induction false} AllTrimToFromEach(parts: seq<string>, clean: seq<string>)
    requires |parts| == |clean|
    requires forall i :: 0 <= i < |parts| ==> TrimsTo(parts[i], clean[i])
    ensures AllTrimTo(parts, clean)
  {
    if parts != [] {
      var n := |parts| - 1;
      forall i | 0 <= i < n
        ensures TrimsTo(parts[..n][i], clean[..n][i])
      {
        assert parts[..n][i] == parts[i] && clean[..n][i] == clean[i];
      }
      AllTrimToFromEach(parts[..n], clean[..n]);
    }
  }

  lemma TrimmedAll(parts: seq<string>, clean: seq<string>)
    requires |parts| == |clean|
    requires forall i :: 0 <= i < |parts| ==> TrimsTo(parts[i], clean[i])
    ensures TrimmedParts(parts) == clean
  {
    AllTrimToFromEach(parts, clean);
    TrimmedEach(parts, clean);
  }

  lemma {:induction false} TrimmedEach(parts: seq<string>, clean: seq<string>)
    requires AllTrimTo(parts, clean)
    ensures TrimmedParts(parts) == clean
  {
    if parts != [] {
      var n := |parts| - 1;
      TrimmedEach(parts[..n], clean[..n]);
      assert clean == clean[..n] + [clean[n]];
    }
  }
}
