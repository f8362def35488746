/** The string and JSON-tree helpers of the frontend (frontend/src/utils.js).
    Each regular-expression `replace` is written out as the left-to-right,
    non-overlapping scan a JavaScript regular expression with the `g` flag
    performs. Letters are the ASCII ones: `[a-z]`, `[A-Z]`, and the case
    mappings of `toLowerCase` / `toUpperCase` on them. */
module FrontendUtils {
  import opened Json

  // -----------------------------------------------------------------------
  // Characters
  // -----------------------------------------------------------------------

  predicate Upper(c: char)
  {
    'A' <= c <= 'Z'
  }

  predicate Lower(c: char)
  {
    'a' <= c <= 'z'
  }

  function ToLowerChar(c: char): (d: char)
    ensures !Upper(d)
    ensures !Upper(c) ==> d == c
  {
    if Upper(c) then (c as int - 'A' as int + 'a' as int) as char else c
  }

  function ToUpperChar(c: char): (d: char)
    ensures !Lower(d)
    ensures !Lower(c) ==> d == c
  {
    if Lower(c) then (c as int - 'a' as int + 'A' as int) as char else c
  }

  /** `String.prototype.toLowerCase` on ASCII letters. */
  function ToLower(s: string): (t: string)
    ensures |t| == |s|
    ensures forall i :: 0 <= i < |s| ==> t[i] == ToLowerChar(s[i])
  {
    seq(|s|, i requires 0 <= i < |s| => ToLowerChar(s[i]))
  }

  /** The characters `\s` matches and `trim` removes: WhiteSpace and
      LineTerminator of sections 12.2 and 12.3 of ECMA-262. */
  predicate Whitespace(c: char)
  {
    c == '\t' || c == '\n' || c == '\U{000B}' || c == '\U{000C}' || c == '\r' || c == ' '
    || c == '\U{00A0}' || c == '\U{1680}' || ('\U{2000}' <= c <= '\U{200A}')
    || c == '\U{2028}' || c == '\U{2029}' || c == '\U{202F}' || c == '\U{205F}'
    || c == '\U{3000}' || c == '\U{FEFF}'
  }

  /** The characters `.` does not match: the LineTerminators. */
  predicate LineTerminator(c: char)
  {
    c == '\n' || c == '\r' || c == '\U{2028}' || c == '\U{2029}'
  }

  /** `s` with every `c` removed. */
  function Without(s: string, c: char): (t: string)
    ensures |t| <= |s|
  {
    if s == [] then [] else (if s[0] == c then [] else [s[0]]) + Without(s[1..], c)
  }

  lemma {:induction false} WithoutAppend(a: string, b: string, c: char)
    ensures Without(a + b, c) == Without(a, c) + Without(b, c)
  {
    if a != [] {
      assert (a + b)[1..] == a[1..] + b;
      WithoutAppend(a[1..], b, c);
    } else {
      assert a + b == b;
    }
  }

  // -----------------------------------------------------------------------
  // `/([a-z])([A-Z])/g` -> "$1<sep>$2"
  // -----------------------------------------------------------------------

  /** Every lowercase letter directly followed by an uppercase one gets
      `sep` between them. */
  function SplitLowerUpper(s: string, sep: char): (t: string)
    ensures |s| > 0 ==> |t| > 0 && t[0] == s[0]
  {
    if |s| < 2 then s
    else if Lower(s[0]) && Upper(s[1]) then [s[0], sep, s[1]] + SplitLowerUpper(s[2..], sep)
    else [s[0]] + SplitLowerUpper(s[1..], sep)
  }

  /** No lowercase letter is directly followed by an uppercase one. */
  predicate NoLowerUpper(t: string)
  {
    forall i :: 0 <= i < |t| - 1 ==> !(Lower(t[i]) && Upper(t[i + 1]))
  }

  /** The scan leaves no lowercase/uppercase pair behind when the separator
      is not a letter. */
  lemma {:induction false} SplitLowerUpperSeparates(s: string, sep: char)
    requires !Lower(sep) && !Upper(sep)
    ensures NoLowerUpper(SplitLowerUpper(s, sep))
  {
    if |s| >= 2 {
      var t := SplitLowerUpper(s, sep);
      if Lower(s[0]) && Upper(s[1]) {
        var rest := SplitLowerUpper(s[2..], sep);
        SplitLowerUpperSeparates(s[2..], sep);
        assert t == [s[0], sep, s[1]] + rest;
        forall i | 0 <= i < |t| - 1
          ensures !(Lower(t[i]) && Upper(t[i + 1]))
        {
          if i >= 3 {
            assert t[i] == rest[i - 3] && t[i + 1] == rest[i - 2];
          }
        }
      } else {
        var rest := SplitLowerUpper(s[1..], sep);
        SplitLowerUpperSeparates(s[1..], sep);
        assert t == [s[0]] + rest;
        forall i | 0 <= i < |t| - 1
          ensures !(Lower(t[i]) && Upper(t[i + 1]))
        {
          if i >= 1 {
            assert t[i] == rest[i - 1] && t[i + 1] == rest[i];
          }
        }
      }
    }
  }

  /** The scan only inserts separators. */
  lemma {:induction false} SplitLowerUpperInserts(s: string, sep: char)
    ensures Without(SplitLowerUpper(s, sep), sep) == Without(s, sep)
  {
    if |s| >= 2 {
      if Lower(s[0]) && Upper(s[1]) {
        SplitLowerUpperInserts(s[2..], sep);
        WithoutAppend([s[0], sep, s[1]], SplitLowerUpper(s[2..], sep), sep);
        assert s == [s[0], s[1]] + s[2..];
        WithoutAppend([s[0], s[1]], s[2..], sep);
      } else {
        SplitLowerUpperInserts(s[1..], sep);
      }
    }
  }

  /** A string without uppercase letters is left as it is. */
  lemma {:induction false} SplitLowerUpperNoUpper(s: string, sep: char)
    requires forall i :: 0 <= i < |s| ==> !Upper(s[i])
    ensures SplitLowerUpper(s, sep) == s
  {
    if |s| >= 2 {
      SplitLowerUpperNoUpper(s[1..], sep);
    }
  }

  // -----------------------------------------------------------------------
  // nameToPath and submodelNameToEndpoint
  // -----------------------------------------------------------------------

  /** `nameToPath`: kebab-case of a camel-case route name. */
  function NameToPath(name: string): (path: string)
    ensures forall i :: 0 <= i < |path| ==> !Upper(path[i])
  {
    ToLower(SplitLowerUpper(name, '-'))
  }

  /** A path is already its own path. */
  lemma NameToPathIdempotent(name: string)
    ensures NameToPath(NameToPath(name)) == NameToPath(name)
  {
    var path := NameToPath(name);
    SplitLowerUpperNoUpper(path, '-');
    assert ToLower(path) == path;
  }

  /** Lowering changes no hyphen. */
  lemma ToLowerCons(x: char, s: string)
    ensures ToLower([x] + s) == [ToLowerChar(x)] + ToLower(s)
  {
    assert ToLower([x] + s)[1..] == ToLower(s);
  }

  lemma {:induction false} ToLowerWithout(s: string)
    ensures Without(ToLower(s), '-') == ToLower(Without(s, '-'))
  {
    if s != [] {
      var x, r := s[0], s[1..];
      ToLowerWithout(r);
      assert ToLower(s) == [ToLowerChar(x)] + ToLower(r) by {
        assert s == [x] + r;
        ToLowerCons(x, r);
      }
      WithoutCons(ToLowerChar(x), ToLower(r), '-');
      if x != '-' {
        ToLowerCons(x, Without(r, '-'));
      }
    }
  }

  /** Apart from lowering the letters, `nameToPath` only inserts hyphens:
      removing every hyphen from the path gives the lowered name without
      its hyphens. */
  lemma NameToPathInsertsHyphens(name: string)
    ensures Without(NameToPath(name), '-') == ToLower(Without(name, '-'))
  {
    SplitLowerUpperInserts(name, '-');
    ToLowerWithout(SplitLowerUpper(name, '-'));
  }

  /** `/\s+/g` -> "-": each run of whitespace becomes one hyphen. */
  function HyphenateWhitespace(s: string): (t: string)
    ensures forall i :: 0 <= i < |t| ==> !Whitespace(t[i])
    ensures |t| <= |s|
    decreases |s|
  {
    if s == [] then []
    else if Whitespace(s[0]) then
      var n := WhitespaceRun(s);
      "-" + HyphenateWhitespace(s[n..])
    else [s[0]] + HyphenateWhitespace(s[1..])
  }

  /** The length of the whitespace run `s` starts with. */
  function WhitespaceRun(s: string): (n: nat)
    requires |s| > 0 && Whitespace(s[0])
    ensures 1 <= n <= |s|
    ensures forall i :: 0 <= i < n ==> Whitespace(s[i])
    ensures n < |s| ==> !Whitespace(s[n])
  {
    if |s| == 1 || !Whitespace(s[1]) then 1 else 1 + WhitespaceRun(s[1..])
  }

  /** `String.prototype.trim`. */
  function Trim(s: string): (t: string)
    ensures |t| <= |s|
  {
    TrimEnd(TrimStart(s))
  }

  function TrimStart(s: string): (t: string)
    ensures |t| <= |s|
  {
    if s != [] && Whitespace(s[0]) then TrimStart(s[1..]) else s
  }

  function TrimEnd(s: string): (t: string)
    ensures |t| <= |s|
  {
    if s != [] && Whitespace(s[|s| - 1]) then TrimEnd(s[..|s| - 1]) else s
  }

  /** `submodelNameToEndpoint`. */
  function SubmodelNameToEndpoint(name: string): (r: string)
    ensures |r| >= 10 && r[..10] == "/submodel/"
    ensures |r| <= 10 + |name|
  {
    "/submodel/" + Trim(HyphenateWhitespace(ToLower(name)))
  }

  /** The final `trim` never has anything left to remove: the endpoint is
      "/submodel/" followed by the lowered name with each whitespace run
      made one hyphen. */
  lemma EndpointShape(name: string)
    ensures SubmodelNameToEndpoint(name) == "/submodel/" + HyphenateWhitespace(ToLower(name))
  {
    var h := HyphenateWhitespace(ToLower(name));
    assert TrimStart(h) == h;
    assert TrimEnd(h) == h;
  }

  /** The endpoint holds no whitespace and no uppercase letter. */
  lemma EndpointClean(name: string)
    ensures var e := SubmodelNameToEndpoint(name);
      e[..10] == "/submodel/" && forall i :: 10 <= i < |e| ==> !Whitespace(e[i]) && !Upper(e[i])
  {
    EndpointShape(name);
    var h := HyphenateWhitespace(ToLower(name));
    HyphenateKeepsCase(ToLower(name));
    var e := SubmodelNameToEndpoint(name);
    forall i | 10 <= i < |e|
      ensures !Whitespace(e[i]) && !Upper(e[i])
    {
      assert e[i] == h[i - 10];
    }
  }

  lemma {:induction false} HyphenateKeepsCase(s: string)
    requires forall i :: 0 <= i < |s| ==> !Upper(s[i])
    ensures forall i :: 0 <= i < |HyphenateWhitespace(s)| ==> !Upper(HyphenateWhitespace(s)[i])
    decreases |s|
  {
    if s != [] {
      if Whitespace(s[0]) {
        HyphenateKeepsCase(s[WhitespaceRun(s)..]);
      } else {
        HyphenateKeepsCase(s[1..]);
      }
    }
  }

  /** `s` holds no whitespace (written recursively so that it unfolds on
      literals). */
  predicate Unspaced(s: string)
  {
    s == [] || (!Whitespace(s[0]) && Unspaced(s[1..]))
  }

  /** `s` is all whitespace. */
  predicate Spaces(s: string)
  {
    s == [] || (Whitespace(s[0]) && Spaces(s[1..]))
  }

  /** Text without whitespace is left as it is. */
  lemma {:induction false} HyphenateNoWhitespace(s: string)
    requires Unspaced(s)
    ensures HyphenateWhitespace(s) == s
  {
    if s != [] {
      HyphenateNoWhitespace(s[1..]);
    }
  }

  lemma {:induction false} HyphenateAfterWord(w: string, rest: string)
    requires Unspaced(w)
    ensures HyphenateWhitespace(w + rest) == w + HyphenateWhitespace(rest)
    decreases |w|
  {
    if w != [] {
      assert (w + rest)[1..] == w[1..] + rest;
      HyphenateAfterWord(w[1..], rest);
    } else {
      assert w + rest == rest;
    }
  }

  lemma {:induction false} WhitespaceRunBefore(ws: string, w: string)
    requires ws != [] && Spaces(ws)
    requires w == [] || !Whitespace(w[0])
    ensures WhitespaceRun(ws + w) == |ws|
    decreases |ws|
  {
    if |ws| > 1 {
      assert (ws + w)[1..] == ws[1..] + w;
      WhitespaceRunBefore(ws[1..], w);
    }
  }

  /** Two words with a whitespace run between them are joined by one
      hyphen. */
  lemma HyphenateJoinsWords(w1: string, ws: string, w2: string)
    requires Unspaced(w1) && Unspaced(w2)
    requires ws != [] && Spaces(ws)
    ensures HyphenateWhitespace(w1 + ws + w2) == w1 + "-" + w2
  {
    assert w1 + ws + w2 == w1 + (ws + w2);
    HyphenateAfterWord(w1, ws + w2);
    WhitespaceRunBefore(ws, w2);
    assert (ws + w2)[|ws|..] == w2;
    HyphenateNoWhitespace(w2);
  }

  lemma {:induction false} ToLowerUnspaced(s: string)
    requires Unspaced(s)
    ensures Unspaced(ToLower(s))
  {
    if s != [] {
      ToLowerUnspaced(s[1..]);
      assert ToLower(s)[1..] == ToLower(s[1..]);
    }
  }

  /** A name without whitespace is only lowered. */
  lemma EndpointOfWord(name: string)
    requires Unspaced(name)
    ensures SubmodelNameToEndpoint(name) == "/submodel/" + ToLower(name)
  {
    EndpointShape(name);
    ToLowerUnspaced(name);
    HyphenateNoWhitespace(ToLower(name));
  }

  lemma ToLowerAppend(a: string, b: string)
    ensures ToLower(a + b) == ToLower(a) + ToLower(b)
  {
    assert ToLower(a + b) == ToLower(a) + ToLower(b);
  }

  lemma {:induction false} ToLowerSpaces(s: string)
    requires Spaces(s)
    ensures ToLower(s) == s
  {
    if s != [] {
      ToLowerSpaces(s[1..]);
      assert ToLower(s)[1..] == ToLower(s[1..]);
    }
  }

  /** Two words with whitespace between them, say "Managed \t Device",
      give "/submodel/managed-device". */
  lemma EndpointOfTwoWords(w1: string, ws: string, w2: string)
    requires Unspaced(w1) && Unspaced(w2)
    requires ws != [] && Spaces(ws)
    ensures SubmodelNameToEndpoint(w1 + ws + w2) == "/submodel/" + ToLower(w1) + "-" + ToLower(w2)
  {
    ToLowerAppend(w1 + ws, w2);
    ToLowerAppend(w1, ws);
    ToLowerSpaces(ws);
    ToLowerUnspaced(w1);
    ToLowerUnspaced(w2);
    HyphenateJoinsWords(ToLower(w1), ws, ToLower(w2));
    EndpointShape(w1 + ws + w2);
  }

  // -----------------------------------------------------------------------
  // camelCaseToSpaces
  // -----------------------------------------------------------------------

  /** The number of uppercase letters `s` starts with. */
  function CapitalRun(s: string): (n: nat)
    ensures n <= |s|
  {
    if s == [] || !Upper(s[0]) then 0 else 1 + CapitalRun(s[1..])
  }

  /** The run is made of capitals and ends at a non-capital or at the end. */
  lemma {:induction false} CapitalRunSpec(s: string)
    ensures forall i :: 0 <= i < CapitalRun(s) ==> Upper(s[i])
    ensures CapitalRun(s) < |s| ==> !Upper(s[CapitalRun(s)])
  {
    if s != [] && Upper(s[0]) {
      CapitalRunSpec(s[1..]);
    }
  }

  /** `/^([A-Z]+)([A-Z][a-z])/` -> "$1 $2": a leading run of two or more
      capitals followed by a lowercase letter gets a space before its last
      capital. */
  function SplitLeadingAcronym(s: string): (t: string)
    ensures |s| > 0 ==> |t| > 0 && t[0] == s[0]
  {
    var n := CapitalRun(s);
    if n >= 2 && n < |s| && Lower(s[n]) then s[..n - 1] + " " + s[n - 1..] else s
  }

  /** `/([A-Z]+)([A-Z][a-z])/g` -> "$1 $2": tried at each position in turn;
      at a capital the greedy run backs off by one letter, so it matches
      when the capitals from there number two or more and a lowercase
      letter follows them, and the scan resumes after that letter. */
  function SplitCapitalRuns(s: string): string
  {
    if s == [] then []
    else if RunSplits(s) then RunPieces(s) + SplitCapitalRuns(s[CapitalRun(s) + 1..])
    else [s[0]] + SplitCapitalRuns(s[1..])
  }

  /** The capital run `s` starts with has two or more letters and meets a
      lowercase letter. */
  predicate RunSplits(s: string)
  {
    2 <= CapitalRun(s) < |s| && Lower(s[CapitalRun(s)])
  }

  /** The matched text with the space inserted: the run but its last
      capital, a space, the last capital and the lowercase letter. */
  function RunPieces(s: string): string
    requires RunSplits(s)
  {
    var n := CapitalRun(s);
    s[..n - 1] + " " + s[n - 1..n + 1]
  }

  lemma SplitCapitalRunsHead(s: string)
    requires s != []
    ensures |SplitCapitalRuns(s)| > 0 && SplitCapitalRuns(s)[0] == s[0]
  {
  }

  /** `/^./` with `toUpperCase`: the first character, unless it is a line
      terminator, is uppercased. */
  function CapitalizeFirst(s: string): (t: string)
    ensures |t| == |s|
  {
    if s != [] && !LineTerminator(s[0]) then [ToUpperChar(s[0])] + s[1..] else s
  }

  /** `camelCaseToSpaces`: the four replacements in order. */
  function CamelCaseToSpaces(s: string): (r: string)
    ensures s == [] <==> r == []
    ensures s != [] ==> r[0] == CapitalizeFirst(s)[0]
  {
    CapitalizeFirst(SplitLowerUpper(SplitCapitalRuns(SplitLeadingAcronym(s)), ' '))
  }

  lemma WithoutCons(x: char, s: string, c: char)
    ensures Without([x] + s, c) == (if x == c then [] else [x]) + Without(s, c)
  {
    assert ([x] + s)[1..] == s;
  }

  /** Removing an inserted `c` undoes the insertion. */
  lemma WithoutInsert(a: string, b: string, c: char)
    ensures Without(a + [c] + b, c) == Without(a + b, c)
  {
    WithoutAppend(a + [c], b, c);
    WithoutAppend(a, [c], c);
    WithoutCons(c, [], c);
    WithoutAppend(a, b, c);
  }

  /** Removing spaces from a string with an inserted space and a tail
      that loses the same spaces as the original tail. */
  lemma InsertedSpace(p: string, q: string, r: string, rest: string)
    requires Without(rest, ' ') == Without(r, ' ')
    ensures Without(p + " " + q + rest, ' ') == Without(p + q + r, ' ')
  {
    Regroup(p, " ", q, rest);
    assert " " == [' '];
    WithoutInsert(p, q + rest, ' ');
    WithoutAppend(p, q + rest, ' ');
    WithoutAppend(q, rest, ' ');
    WithoutAppend(p + q, r, ' ');
    WithoutAppend(p, q, ' ');
  }

  lemma SameHead(x: char, a: string, b: string, c: char)
    requires Without(a, c) == Without(b, c)
    ensures Without([x] + a, c) == Without([x] + b, c)
  {
    WithoutCons(x, a, c);
    WithoutCons(x, b, c);
  }

  lemma Slices(s: string, i: nat, j: nat)
    requires i <= j <= |s|
    ensures s == s[..i] + s[i..j] + s[j..]
  {
  }

  lemma InsertsAtSplit(s: string)
    requires RunSplits(s)
    requires Without(SplitCapitalRuns(s[CapitalRun(s) + 1..]), ' ') == Without(s[CapitalRun(s) + 1..], ' ')
    ensures Without(SplitCapitalRuns(s), ' ') == Without(s, ' ')
  {
    var n := CapitalRun(s);
    var p, q, r := s[..n - 1], s[n - 1..n + 1], s[n + 1..];
    var rest := SplitCapitalRuns(r);
    ScanSplits(s);
    assert RunPieces(s) == p + " " + q;
    InsertedSpace(p, q, r, rest);
    Slices(s, n - 1, n + 1);
  }

  lemma InsertsAtPass(s: string)
    requires s != [] && !RunSplits(s)
    requires Without(SplitCapitalRuns(s[1..]), ' ') == Without(s[1..], ' ')
    ensures Without(SplitCapitalRuns(s), ' ') == Without(s, ' ')
  {
    ScanPass(s);
    SameHead(s[0], SplitCapitalRuns(s[1..]), s[1..], ' ');
    assert s == [s[0]] + s[1..];
  }

  lemma {:induction false} SplitCapitalRunsInserts(s: string)
    ensures Without(SplitCapitalRuns(s), ' ') == Without(s, ' ')
    decreases |s|
  {
    if s != [] {
      if RunSplits(s) {
        SplitCapitalRunsInserts(s[CapitalRun(s) + 1..]);
        InsertsAtSplit(s);
      } else {
        SplitCapitalRunsInserts(s[1..]);
        InsertsAtPass(s);
      }
    }
  }

  lemma SplitLeadingAcronymInserts(s: string)
    ensures Without(SplitLeadingAcronym(s), ' ') == Without(s, ' ')
  {
    var n := CapitalRun(s);
    if n >= 2 && n < |s| && Lower(s[n]) {
      var a, b := s[..n - 1], s[n - 1..];
      assert SplitLeadingAcronym(s) == a + [' '] + b;
      WithoutInsert(a, b, ' ');
      assert s == a + b;
    }
  }

  /** Uppercasing the first character commutes with removing spaces when
      the two strings start alike. */
  lemma CapitalizeWithout(s: string, t: string)
    requires Without(s, ' ') == Without(t, ' ')
    requires |s| > 0 && |t| > 0 && t[0] == s[0]
    ensures Without(CapitalizeFirst(s), ' ') == Without(CapitalizeFirst(t), ' ')
  {
  }

  /** `camelCaseToSpaces` only inserts spaces and uppercases the first
      character: removing every space from its result gives the input,
      first character uppercased, without its spaces. */
  lemma CamelCaseOnlyInsertsSpaces(s: string)
    ensures Without(CamelCaseToSpaces(s), ' ') == Without(CapitalizeFirst(s), ' ')
  {
    var a := SplitLeadingAcronym(s);
    var b := SplitCapitalRuns(a);
    var c := SplitLowerUpper(b, ' ');
    SplitLeadingAcronymInserts(s);
    SplitCapitalRunsInserts(a);
    SplitLowerUpperInserts(b, ' ');
    if s != [] {
      SplitCapitalRunsHead(a);
      CapitalizeWithout(c, s);
    }
  }

  /** No lowercase letter of the result is directly followed by an
      uppercase one. */
  lemma CamelCaseSeparatesWords(s: string)
    ensures NoLowerUpper(CamelCaseToSpaces(s))
  {
    var c := SplitLowerUpper(SplitCapitalRuns(SplitLeadingAcronym(s)), ' ');
    SplitLowerUpperSeparates(SplitCapitalRuns(SplitLeadingAcronym(s)), ' ');
    var t := CamelCaseToSpaces(s);
    forall i | 0 <= i < |t| - 1
      ensures !(Lower(t[i]) && Upper(t[i + 1]))
    {
      if i >= 1 {
        assert t[i] == c[i] && t[i + 1] == c[i + 1];
      } else if t != c {
        assert !Lower(t[0]);
      }
    }
  }

  /** A string where no two capitals are adjacent is left alone by the
      capital-run scan. */
  lemma {:induction false} NoCapitalRuns(s: string)
    requires forall i :: 0 <= i < |s| - 1 ==> !(Upper(s[i]) && Upper(s[i + 1]))
    ensures SplitCapitalRuns(s) == s
  {
    if s != [] {
      NoCapitalRuns(s[1..]);
    }
  }

  lemma {:induction false} NoLowerUpperFixed(s: string, sep: char)
    requires NoLowerUpper(s)
    ensures SplitLowerUpper(s, sep) == s
  {
    if |s| >= 2 {
      NoLowerUpperFixed(s[1..], sep);
    }
  }

  /** The capital run is exactly the capitals before the first
      non-capital. */
  lemma {:induction false} CapitalRunIs(t: string, m: nat)
    requires m <= |t| && forall i :: 0 <= i < m ==> Upper(t[i])
    requires m < |t| ==> !Upper(t[m])
    ensures CapitalRun(t) == m
  {
    if m > 0 {
      CapitalRunIs(t[1..], m - 1);
    }
  }

  /** Where no run of two or more capitals meets a lowercase letter, the
      capital-run scan emits the first character and goes on. */
  lemma ScanPass(x: string)
    requires x != [] && !RunSplits(x)
    ensures SplitCapitalRuns(x) == [x[0]] + SplitCapitalRuns(x[1..])
  {
  }

  lemma ScanSpace(u: string)
    ensures SplitCapitalRuns(" " + u) == " " + SplitCapitalRuns(u)
  {
    assert (" " + u)[1..] == u;
    ScanPass(" " + u);
  }

  lemma ConsRegroup(c: char, a: string, b: string)
    ensures [c] + (a + b) == ([c] + a) + b
  {
  }

  /** The capital-run scan passes over capitals followed by a space. */
  lemma {:induction false} ScanPastRun(a: string, u: string)
    requires forall i :: 0 <= i < |a| ==> Upper(a[i])
    ensures SplitCapitalRuns(a + " " + u) == a + " " + SplitCapitalRuns(u)
    decreases |a|
  {
    if a == [] {
      assert a + " " + u == " " + u;
      ScanSpace(u);
    } else {
      ScanRunStep(a, u);
      ScanPastRun(a[1..], u);
      ConsRegroup(a[0], a[1..] + " ", SplitCapitalRuns(u));
      assert [a[0]] + (a[1..] + " ") == a + " ";
    }
  }

  lemma ScanRunStep(a: string, u: string)
    requires a != [] && forall i :: 0 <= i < |a| ==> Upper(a[i])
    ensures SplitCapitalRuns(a + " " + u) == [a[0]] + SplitCapitalRuns(a[1..] + " " + u)
  {
    var t := a + " " + u;
    CapitalRunIs(t, |a|);
    ScanPass(t);
    assert t[1..] == a[1..] + " " + u;
  }

  /** A capital followed by a lowercase letter is passed over one letter at
      a time. */
  lemma ScanPair(u: string)
    requires |u| >= 2 && Upper(u[0]) && Lower(u[1])
    ensures SplitCapitalRuns(u) == u[..2] + SplitCapitalRuns(u[2..])
  {
    var v := u[1..];
    assert !RunSplits(u) by {
      CapitalRunIs(u, 1);
    }
    ScanPass(u);
    assert !RunSplits(v) by {
      CapitalRunIs(v, 0);
    }
    ScanPass(v);
    assert v[1..] == u[2..];
    PairRegroup(u[0], v[0], SplitCapitalRuns(u[2..]));
    assert u[..2] == [u[0], v[0]];
  }

  lemma PairRegroup(a: char, b: char, t: string)
    ensures [a] + ([b] + t) == [a, b] + t
  {
  }

  /** Where a run of two or more capitals meets a lowercase letter, the scan
      splits before the run's last capital. */
  lemma ScanSplits(s: string)
    requires RunSplits(s)
    ensures SplitCapitalRuns(s) == RunPieces(s) + SplitCapitalRuns(s[CapitalRun(s) + 1..])
  {
    assert s != [] && RunSplits(s);
  }

  lemma Regroup(a: string, b: string, c: string, d: string)
    ensures a + b + (c + d) == a + b + c + d
  {
  }

  /** The string with the space inserted by the leading-acronym
      replacement is scanned into the same pieces. */
  lemma ScanAfterAcronym(p: string, u: string)
    requires forall i :: 0 <= i < |p| ==> Upper(p[i])
    requires |u| >= 2 && Upper(u[0]) && Lower(u[1])
    ensures SplitCapitalRuns(p + " " + u) == p + " " + (u[..2] + SplitCapitalRuns(u[2..]))
  {
    ScanPastRun(p, u);
    ScanPair(u);
  }

  /** The leading-acronym replacement never changes the result: the general
      capital-run scan makes the same split when it starts at position 0. */
  lemma LeadingAcronymRedundant(s: string)
    ensures SplitCapitalRuns(SplitLeadingAcronym(s)) == SplitCapitalRuns(s)
  {
    var n := CapitalRun(s);
    if n >= 2 && n < |s| && Lower(s[n]) {
      var p, u := s[..n - 1], s[n - 1..];
      assert SplitLeadingAcronym(s) == p + " " + u;
      CapitalRunSpec(s);
      ScanAfterAcronym(p, u);
      assert u[..2] == s[n - 1..n + 1] && u[2..] == s[n + 1..];
      ScanSplits(s);
      Regroup(p, " ", s[n - 1..n + 1], SplitCapitalRuns(s[n + 1..]));
    }
  }

  /** A word of two or more letters whose letters after the first are
      lowercase. */
  predicate LowerTail(w: string)
  {
    |w| >= 2 && (Lower(w[0]) || Upper(w[0])) && forall i :: 1 <= i < |w| ==> Lower(w[i])
  }

  /** A capital followed by lowercase letters. */
  predicate Capitalized(w: string)
  {
    |w| >= 1 && Upper(w[0]) && forall i :: 1 <= i < |w| ==> Lower(w[i])
  }

  lemma JoinNoCapitalRuns(w1: string, w2: string)
    requires LowerTail(w1) && Capitalized(w2)
    ensures SplitCapitalRuns(w1 + w2) == w1 + w2
  {
    var s := w1 + w2;
    forall i | 0 <= i < |s| - 1
      ensures !(Upper(s[i]) && Upper(s[i + 1]))
    {
      if i + 1 < |w1| {
        assert Lower(s[i + 1]);
      } else if i + 1 == |w1| {
        assert Lower(s[i]);
      } else {
        assert s[i + 1] == w2[i + 1 - |w1|];
      }
    }
    NoCapitalRuns(s);
  }

  lemma ScanLowerUpperPair(c: char, w: string, sep: char)
    requires Lower(c) && Capitalized(w)
    ensures SplitLowerUpper([c] + w, sep) == [c, sep, w[0]] + w[1..]
  {
    assert ([c] + w)[2..] == w[1..];
    NoLowerUpperFixed(w[1..], sep);
  }

  lemma JoinLowerUpper(w1: string, w2: string, sep: char)
    requires LowerTail(w1) && Capitalized(w2)
    ensures SplitLowerUpper(w1 + w2, sep) == w1 + [sep] + w2
  {
    var k := |w1| - 1;
    var p, c := w1[..k], w1[k];
    assert w1 + w2 == p + ([c] + w2);
    assert NoLowerUpper(p) by {
      forall i | 0 <= i < |p| - 1
        ensures !(Lower(p[i]) && Upper(p[i + 1]))
      {
        assert Lower(w1[i + 1]);
      }
    }
    SplitLowerUpperAfter(p, [c] + w2, sep);
    ScanLowerUpperPair(c, w2, sep);
    assert p + ([c, sep, w2[0]] + w2[1..]) == w1 + [sep] + w2;
  }

  /** Two words, the second capitalized, give their lowered forms joined by
      a hyphen: "ipAddress" gives "ip-address". */
  lemma NameToPathTwoWords(w1: string, w2: string)
    requires LowerTail(w1) && Capitalized(w2)
    ensures NameToPath(w1 + w2) == ToLower(w1) + "-" + ToLower(w2)
  {
    JoinLowerUpper(w1, w2, '-');
    ToLowerAppend(w1 + "-", w2);
    ToLowerAppend(w1, "-");
    assert ToLower("-") == "-";
  }

  lemma CapitalizeJoin(w: string, rest: string)
    requires w != []
    ensures CapitalizeFirst(w + rest) == CapitalizeFirst(w) + rest
  {
    assert (w + rest)[0] == w[0];
  }

  /** Two words, the second capitalized, are split by one space and the
      first is capitalized: "ipAddress" gives "Ip Address",
      "NetworkConfiguration" gives "Network Configuration". */
  lemma CamelCaseTwoWords(w1: string, w2: string)
    requires LowerTail(w1) && Capitalized(w2)
    ensures CamelCaseToSpaces(w1 + w2) == CapitalizeFirst(w1) + " " + w2
  {
    var s := w1 + w2;
    assert SplitLeadingAcronym(s) == s by {
      CapitalRunSpec(s);
      assert !Upper(s[1]);
    }
    JoinNoCapitalRuns(w1, w2);
    JoinLowerUpper(w1, w2, ' ');
    assert w1 + " " + w2 == w1 + (" " + w2);
    CapitalizeJoin(w1, " " + w2);
  }

  /** The lower/upper scan passes over a prefix that holds no such pair and
      does not end in a lowercase letter followed by an uppercase one. */
  lemma {:induction false} SplitLowerUpperAfter(w: string, rest: string, sep: char)
    requires rest != [] && NoLowerUpper(w)
    requires w != [] ==> !(Lower(w[|w| - 1]) && Upper(rest[0]))
    ensures SplitLowerUpper(w + rest, sep) == w + SplitLowerUpper(rest, sep)
    decreases |w|
  {
    if w != [] {
      assert (w + rest)[1..] == w[1..] + rest;
      SplitLowerUpperAfter(w[1..], rest, sep);
    } else {
      assert w + rest == rest;
    }
  }

  lemma AcronymRun(a: string, w: string)
    requires |a| >= 2 && forall i :: 0 <= i < |a| ==> Upper(a[i])
    requires |w| >= 2 && Capitalized(w)
    ensures SplitLeadingAcronym(a + w) == a + " " + w
  {
    var s := a + w;
    var n := |a| + 1;
    CapitalRunIs(s, n);
    assert s[..n - 1] == a && s[n - 1..] == w;
  }

  lemma AcronymScan(a: string, w: string)
    requires |a| >= 2 && forall i :: 0 <= i < |a| ==> Upper(a[i])
    requires Capitalized(w)
    ensures SplitCapitalRuns(a + " " + w) == a + " " + w
  {
    ScanPastRun(a, w);
    NoCapitalRuns(w);
  }

  lemma AcronymSeparated(a: string, w: string)
    requires forall i :: 0 <= i < |a| ==> Upper(a[i])
    requires Capitalized(w)
    ensures NoLowerUpper(a + " " + w)
  {
    var t := a + " " + w;
    forall i | 0 <= i < |t| - 1
      ensures !(Lower(t[i]) && Upper(t[i + 1]))
    {
      if i > |a| {
        assert t[i + 1] == w[i - |a|];
      }
    }
  }

  /** An acronym followed by a capitalized word is split before the word:
      "ABCDef" gives "ABC Def". */
  lemma CamelCaseAcronymWord(a: string, w: string)
    requires |a| >= 2 && forall i :: 0 <= i < |a| ==> Upper(a[i])
    requires |w| >= 2 && Capitalized(w)
    ensures CamelCaseToSpaces(a + w) == a + " " + w
  {
    AcronymRun(a, w);
    AcronymScan(a, w);
    AcronymSeparated(a, w);
    var t := a + " " + w;
    NoLowerUpperFixed(t, ' ');
    assert t[0] == a[0];
  }

  // -----------------------------------------------------------------------
  // findByKey and findDirectValueByKey
  // -----------------------------------------------------------------------

  /** The array index a key names, when it is the canonical decimal text of
      an index below `n`. */
  function IndexKey(k: string, n: nat): (r: Option<nat>)
    ensures r.Some? ==> r.value < n && NatText(r.value) == k
  {
    if n == 0 then None
    else if NatText(n - 1) == k then Some(n - 1)
    else IndexKey(k, n - 1)
  }

  /** `obj.hasOwnProperty(k) ? obj[k]` for an object or array. Arrays own
      their indices and `length`. */
  function OwnProperty(v: Value, k: string): (r: Option<Value>)
    ensures r.Some? ==> v.Obj? || v.Arr?
  {
    match v
    case Obj(fs) => Lookup(fs, k)
    case Arr(items) =>
      if k == "length" then Some(Num(|items|))
      else
        var i := IndexKey(k, |items|);
        if i.Some? then Some(items[i.value]) else None
    case _ => None
  }

  /** `typeof value === 'object'`: objects, arrays, and null. */
  predicate TypeofObject(v: Value)
  {
    v.Obj? || v.Arr? || v.Null?
  }

  /** `findByKey`: the own property if there is one, else the first
      non-null find among the children, depth-first in order. Null stands
      both for JavaScript's `null` and for "not found". */
  function FindByKey(v: Value, k: string): (r: Value)
    ensures r != Null ==> v.Obj? || v.Arr?
  {
    if !(v.Obj? || v.Arr?) then Null
    else if OwnProperty(v, k).Some? then OwnProperty(v, k).value
    else if v.Obj? then FindInFields(v.fields, k)
    else FindInItems(v.items, k)
  }

  function FindInFields(fs: seq<Field>, k: string): Value
  {
    if fs == [] then Null
    else
      var found := if TypeofObject(fs[0].value) then FindByKey(fs[0].value, k) else Null;
      if found != Null then found else FindInFields(fs[1..], k)
  }

  function FindInItems(items: seq<Value>, k: string): Value
  {
    if items == [] then Null
    else
      var found := if TypeofObject(items[0]) then FindByKey(items[0], k) else Null;
      if found != Null then found else FindInItems(items[1..], k)
  }

  /** Somewhere in `v` (at `v` itself or below) `k` is an own property with
      value `r`. */
  predicate Holds(v: Value, k: string, r: Value)
  {
    (OwnProperty(v, k) == Some(r))
    || (v.Obj? && HoldsInFields(v.fields, k, r))
    || (v.Arr? && HoldsInItems(v.items, k, r))
  }

  predicate HoldsInFields(fs: seq<Field>, k: string, r: Value)
  {
    fs != [] && (Holds(fs[0].value, k, r) || HoldsInFields(fs[1..], k, r))
  }

  predicate HoldsInItems(items: seq<Value>, k: string, r: Value)
  {
    items != [] && (Holds(items[0], k, r) || HoldsInItems(items[1..], k, r))
  }

  /** Whatever `findByKey` returns other than null is the value of `k` in
      some object inside the input. */
  lemma {:induction false} FindByKeySound(v: Value, k: string)
    ensures FindByKey(v, k) != Null ==> Holds(v, k, FindByKey(v, k))
    decreases v, 2
  {
    if (v.Obj? || v.Arr?) && OwnProperty(v, k).None? {
      if v.Obj? {
        FindInFieldsSound(v.fields, k);
      } else {
        FindInItemsSound(v.items, k);
      }
    }
  }

  lemma {:induction false} FindInFieldsSound(fs: seq<Field>, k: string)
    ensures FindInFields(fs, k) != Null ==> HoldsInFields(fs, k, FindInFields(fs, k))
    decreases fs, 1
  {
    if fs != [] {
      FindByKeySound(fs[0].value, k);
      FindInFieldsSound(fs[1..], k);
    }
  }

  lemma {:induction false} FindInItemsSound(items: seq<Value>, k: string)
    ensures FindInItems(items, k) != Null ==> HoldsInItems(items, k, FindInItems(items, k))
    decreases items, 1
  {
    if items != [] {
      FindByKeySound(items[0], k);
      FindInItemsSound(items[1..], k);
    }
  }

  /** Nothing is found where the key occurs nowhere. */
  lemma {:induction false} FindByKeyAbsent(v: Value, k: string)
    requires forall r :: !Holds(v, k, r)
    ensures FindByKey(v, k) == Null
  {
    FindByKeySound(v, k);
  }

  /** Conversely, where `k` is held somewhere and never with the value
      null, `findByKey` finds something: the search misses no holder. */
  lemma {:induction false} FindByKeyComplete(v: Value, k: string, r: Value)
    requires Holds(v, k, r)
    requires forall w :: Holds(v, k, w) ==> w != Null
    ensures FindByKey(v, k) != Null
    decreases v, 2
  {
    if OwnProperty(v, k).Some? {
      assert Holds(v, k, OwnProperty(v, k).value);
    } else if v.Obj? {
      forall w | HoldsInFields(v.fields, k, w)
        ensures w != Null
      {
        assert Holds(v, k, w);
      }
      FindInFieldsComplete(v.fields, k, r);
    } else {
      forall w | HoldsInItems(v.items, k, w)
        ensures w != Null
      {
        assert Holds(v, k, w);
      }
      FindInItemsComplete(v.items, k, r);
    }
  }

  lemma {:induction false} FindInFieldsComplete(fs: seq<Field>, k: string, r: Value)
    requires HoldsInFields(fs, k, r)
    requires forall w :: HoldsInFields(fs, k, w) ==> w != Null
    ensures FindInFields(fs, k) != Null
    decreases fs, 1
  {
    if Holds(fs[0].value, k, r) {
      forall w | Holds(fs[0].value, k, w)
        ensures w != Null
      {
        assert HoldsInFields(fs, k, w);
      }
      FindByKeyComplete(fs[0].value, k, r);
    } else {
      forall w | HoldsInFields(fs[1..], k, w)
        ensures w != Null
      {
        assert HoldsInFields(fs, k, w);
      }
      FindInFieldsComplete(fs[1..], k, r);
    }
  }

  lemma {:induction false} FindInItemsComplete(items: seq<Value>, k: string, r: Value)
    requires HoldsInItems(items, k, r)
    requires forall w :: HoldsInItems(items, k, w) ==> w != Null
    ensures FindInItems(items, k) != Null
    decreases items, 1
  {
    if Holds(items[0], k, r) {
      forall w | Holds(items[0], k, w)
        ensures w != Null
      {
        assert HoldsInItems(items, k, w);
      }
      FindByKeyComplete(items[0], k, r);
    } else {
      forall w | HoldsInItems(items[1..], k, w)
        ensures w != Null
      {
        assert HoldsInItems(items, k, w);
      }
      FindInItemsComplete(items[1..], k, r);
    }
  }

  /** A key at the top wins over every nested occurrence, and an array's
      `length` is found as a number. */
  lemma FindByKeyOwnFirst(fs: seq<Field>, items: seq<Value>, k: string)
    requires k in Keys(fs)
    ensures FindByKey(Obj(fs), k) == Lookup(fs, k).value
    ensures FindByKey(Arr(items), "length") == Num(|items|)
  {
  }

  /** A null-valued match is indistinguishable from "not found": it hides
      the rest of its own subtree, and the search goes on with the next
      sibling. */
  lemma NullMatchExamples()
    ensures FindByKey(Obj([Field("a", Obj([Field("k", Null), Field("c", Obj([Field("k", Str("inner"))]))])),
                           Field("b", Obj([Field("k", Str("sibling"))]))]), "k")
            == Str("sibling")
  {
    var inner := Obj([Field("k", Null), Field("c", Obj([Field("k", Str("inner"))]))]);
    assert OwnProperty(inner, "k") == Some(Null);
    assert FindByKey(inner, "k") == Null;
    var fs := [Field("a", inner), Field("b", Obj([Field("k", Str("sibling"))]))];
    assert fs[1..] == [Field("b", Obj([Field("k", Str("sibling"))]))];
    assert Lookup(fs, "k") == None;
  }

  /** `findDirectValueByKey`: like `findByKey`, but an own property is
      returned only when its value is not an object or array
      (`instanceof Object`); otherwise the search goes on below, into that
      value too. */
  function FindDirectValueByKey(v: Value, k: string): (r: Value)
    ensures r != Null ==> (v.Obj? || v.Arr?) && !r.Obj? && !r.Arr?
  {
    if !(v.Obj? || v.Arr?) then Null
    else if OwnProperty(v, k).Some? && !(OwnProperty(v, k).value.Obj? || OwnProperty(v, k).value.Arr?) then
      OwnProperty(v, k).value
    else if v.Obj? then FindDirectInFields(v.fields, k)
    else FindDirectInItems(v.items, k)
  }

  function FindDirectInFields(fs: seq<Field>, k: string): (r: Value)
    ensures r != Null ==> !r.Obj? && !r.Arr?
  {
    if fs == [] then Null
    else
      var found := if TypeofObject(fs[0].value) then FindDirectValueByKey(fs[0].value, k) else Null;
      if found != Null then found else FindDirectInFields(fs[1..], k)
  }

  function FindDirectInItems(items: seq<Value>, k: string): (r: Value)
    ensures r != Null ==> !r.Obj? && !r.Arr?
  {
    if items == [] then Null
    else
      var found := if TypeofObject(items[0]) then FindDirectValueByKey(items[0], k) else Null;
      if found != Null then found else FindDirectInItems(items[1..], k)
  }

  /** What `findDirectValueByKey` returns is never an object or array, and
      is the value of `k` somewhere inside the input. */
  lemma {:induction false} FindDirectSound(v: Value, k: string)
    ensures var r := FindDirectValueByKey(v, k);
      r != Null ==> !r.Obj? && !r.Arr? && Holds(v, k, r)
    decreases v, 2
  {
    if (v.Obj? || v.Arr?) && !(OwnProperty(v, k).Some? && !(OwnProperty(v, k).value.Obj? || OwnProperty(v, k).value.Arr?)) {
      if v.Obj? {
        FindDirectInFieldsSound(v.fields, k);
      } else {
        FindDirectInItemsSound(v.items, k);
      }
    }
  }

  lemma {:induction false} FindDirectInFieldsSound(fs: seq<Field>, k: string)
    ensures var r := FindDirectInFields(fs, k);
      r != Null ==> !r.Obj? && !r.Arr? && HoldsInFields(fs, k, r)
    decreases fs, 1
  {
    if fs != [] {
      FindDirectSound(fs[0].value, k);
      FindDirectInFieldsSound(fs[1..], k);
    }
  }

  lemma {:induction false} FindDirectInItemsSound(items: seq<Value>, k: string)
    ensures var r := FindDirectInItems(items, k);
      r != Null ==> !r.Obj? && !r.Arr? && HoldsInItems(items, k, r)
    decreases items, 1
  {
    if items != [] {
      FindDirectSound(items[0], k);
      FindDirectInItemsSound(items[1..], k);
    }
  }

  /** Conversely, where `k` holds a value that is neither null nor an
      object or array, and no such holder has the value null,
      `findDirectValueByKey` finds something. */
  lemma {:induction false} FindDirectComplete(v: Value, k: string, r: Value)
    requires Holds(v, k, r) && Plain(r)
    requires forall w :: Holds(v, k, w) && !w.Obj? && !w.Arr? ==> w != Null
    ensures FindDirectValueByKey(v, k) != Null
    decreases v, 2
  {
    if OwnProperty(v, k).Some? && !(OwnProperty(v, k).value.Obj? || OwnProperty(v, k).value.Arr?) {
      assert Holds(v, k, OwnProperty(v, k).value);
    } else if v.Obj? {
      forall w | HoldsInFields(v.fields, k, w) && !w.Obj? && !w.Arr?
        ensures w != Null
      {
        assert Holds(v, k, w);
      }
      FindDirectInFieldsComplete(v.fields, k, r);
    } else {
      forall w | HoldsInItems(v.items, k, w) && !w.Obj? && !w.Arr?
        ensures w != Null
      {
        assert Holds(v, k, w);
      }
      FindDirectInItemsComplete(v.items, k, r);
    }
  }

  /** A value `findDirectValueByKey` can return: not null, not an object or
      array. */
  predicate Plain(r: Value)
  {
    r != Null && !r.Obj? && !r.Arr?
  }

  lemma {:induction false} FindDirectInFieldsComplete(fs: seq<Field>, k: string, r: Value)
    requires HoldsInFields(fs, k, r) && Plain(r)
    requires forall w :: HoldsInFields(fs, k, w) && !w.Obj? && !w.Arr? ==> w != Null
    ensures FindDirectInFields(fs, k) != Null
    decreases fs, 1
  {
    if Holds(fs[0].value, k, r) {
      forall w | Holds(fs[0].value, k, w) && !w.Obj? && !w.Arr?
        ensures w != Null
      {
        assert HoldsInFields(fs, k, w);
      }
      FindDirectComplete(fs[0].value, k, r);
    } else {
      forall w | HoldsInFields(fs[1..], k, w) && !w.Obj? && !w.Arr?
        ensures w != Null
      {
        assert HoldsInFields(fs, k, w);
      }
      FindDirectInFieldsComplete(fs[1..], k, r);
    }
  }

  lemma {:induction false} FindDirectInItemsComplete(items: seq<Value>, k: string, r: Value)
    requires HoldsInItems(items, k, r) && Plain(r)
    requires forall w :: HoldsInItems(items, k, w) && !w.Obj? && !w.Arr? ==> w != Null
    ensures FindDirectInItems(items, k) != Null
    decreases items, 1
  {
    if Holds(items[0], k, r) {
      forall w | Holds(items[0], k, w) && !w.Obj? && !w.Arr?
        ensures w != Null
      {
        assert HoldsInItems(items, k, w);
      }
      FindDirectComplete(items[0], k, r);
    } else {
      forall w | HoldsInItems(items[1..], k, w) && !w.Obj? && !w.Arr?
        ensures w != Null
      {
        assert HoldsInItems(items, k, w);
      }
      FindDirectInItemsComplete(items[1..], k, r);
    }
  }

  /** An object-valued match is searched into: its own key is found below. */
  lemma DirectDescendsIntoMatch()
    ensures FindDirectValueByKey(Obj([Field("status", Obj([Field("status", Str("ONBOARDED"))]))]), "status")
            == Str("ONBOARDED")
    ensures FindByKey(Obj([Field("status", Obj([Field("status", Str("ONBOARDED"))]))]), "status")
            == Obj([Field("status", Str("ONBOARDED"))])
  {
    var inner := Obj([Field("status", Str("ONBOARDED"))]);
    var fs := [Field("status", inner)];
    assert FindDirectValueByKey(inner, "status") == Str("ONBOARDED");
    assert fs[1..] == [];
  }
}
