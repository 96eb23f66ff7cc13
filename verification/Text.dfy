/** Strings as both languages cut them up: trimming, splitting, joining, cutting. */
module Text {
  import opened Common

  /** Unicode's White_Space property, which both `strings.TrimSpace` and `str::trim` use. */
  predicate IsSpace(c: char) {
    || '\t' <= c <= '\r' || c == ' ' || c == '\U{85}' || c == '\U{A0}' || c == '\U{1680}'
    || '\U{2000}' <= c <= '\U{200A}' || c == '\U{2028}' || c == '\U{2029}' || c == '\U{202F}'
    || c == '\U{205F}' || c == '\U{3000}'
  }

  function TrimLeft(s: string): string {
    if s != "" && IsSpace(s[0]) then TrimLeft(s[1..]) else s
  }

  function TrimRight(s: string): string {
    if s != "" && IsSpace(s[|s| - 1]) then TrimRight(s[..|s| - 1]) else s
  }

  function Trim(s: string): string {
    TrimRight(TrimLeft(s))
  }

  function Split(s: string, sep: char): (parts: seq<string>)
    ensures |parts| >= 1
  {
    if s == "" then [""]
    else
      var rest := Split(s[1..], sep);
      if s[0] == sep then [""] + rest else [[s[0]] + rest[0]] + rest[1..]
  }

  function Join(parts: seq<string>, sep: char): string {
    if parts == [] then ""
    else if |parts| == 1 then parts[0]
    else parts[0] + [sep] + Join(parts[1..], sep)
  }

  /** `strings.Cut` and `split_once`: around the first separator. */
  function Cut(s: string, sep: char): Option<(string, string)> {
    if s == "" then None
    else if s[0] == sep then Some(("", s[1..]))
    else match Cut(s[1..], sep)
      case None => None
      case Some(p) => Some(([s[0]] + p.0, p.1))
  }

  function StripCr(s: string): string {
    if s != "" && s[|s| - 1] == '\r' then s[..|s| - 1] else s
  }

  /** `str::lines`: no last empty line, and a carriage return before each line feed dropped. */
  function Lines(s: string): seq<string> {
    var parts := Split(s, '\n');
    var n := if parts[|parts| - 1] == "" then |parts| - 1 else |parts|;
    seq(n, i requires 0 <= i < n => if i < |parts| - 1 then StripCr(parts[i]) else parts[i])
  }

  // ---- trimming ---------------------------------------------------------------------

  /** Nothing to trim, and something there. */
  predicate Clean(s: string) {
    s != "" && !IsSpace(s[0]) && !IsSpace(s[|s| - 1])
  }

  /** A clean text on one line. */
  predicate OneLine(s: string) {
    Clean(s) && '\n' !in s
  }

  lemma CleanTrims(s: string)
    requires Clean(s)
    ensures Trim(s) == s
  {
  }

  lemma {:induction false} TrimLeftIs(s: string)
    ensures TrimLeft(s) == "" || !IsSpace(TrimLeft(s)[0])
    ensures forall c :: c in TrimLeft(s) ==> c in s
  {
    if s != "" && IsSpace(s[0]) { TrimLeftIs(s[1..]); }
  }

  lemma {:induction false} TrimRightIs(s: string)
    ensures TrimRight(s) <= s
    ensures TrimRight(s) == "" || !IsSpace(TrimRight(s)[|TrimRight(s)| - 1])
  {
    if s != "" && IsSpace(s[|s| - 1]) { TrimRightIs(s[..|s| - 1]); }
  }

  /** Trimming leaves nothing or a clean text, made of characters that were there. */
  lemma TrimIs(s: string)
    ensures Trim(s) == "" || Clean(Trim(s))
    ensures forall c :: c in Trim(s) ==> c in s
  {
    TrimLeftIs(s);
    TrimRightIs(TrimLeft(s));
  }

  // ---- splitting and joining ------------------------------------------------------------

  lemma {:induction false} SplitWhole(s: string, sep: char)
    requires sep !in s
    ensures Split(s, sep) == [s]
  {
    if s != "" {
      SplitWhole(s[1..], sep);
      assert [s[0]] + s[1..] == s;
    }
  }

  lemma {:induction false} SplitFirst(a: string, sep: char, b: string)
    requires sep !in a
    ensures Split(a + [sep] + b, sep) == [a] + Split(b, sep)
  {
    var s := a + [sep] + b;
    if a == "" {
      assert s[1..] == b;
    } else {
      SplitFirst(a[1..], sep, b);
      assert s[1..] == a[1..] + [sep] + b;
      assert [a[0]] + a[1..] == a;
    }
  }

  lemma {:induction false} SplitJoin(parts: seq<string>, sep: char)
    requires |parts| >= 1 && forall i :: 0 <= i < |parts| ==> sep !in parts[i]
    ensures Split(Join(parts, sep), sep) == parts
  {
    if |parts| == 1 {
      SplitWhole(parts[0], sep);
    } else {
      SplitJoin(parts[1..], sep);
      SplitFirst(parts[0], sep, Join(parts[1..], sep));
    }
  }

  lemma JoinPrefix(c: char, parts: seq<string>, sep: char)
    requires parts != []
    ensures Join([[c] + parts[0]] + parts[1..], sep) == [c] + Join(parts, sep)
  {
    var longer := [[c] + parts[0]] + parts[1..];
    if |parts| > 1 {
      assert longer[1..] == parts[1..];
      assert [c] + (parts[0] + [sep] + Join(parts[1..], sep)) == longer[0] + [sep] + Join(longer[1..], sep);
    }
  }

  lemma {:induction false} SplitParts(s: string, sep: char)
    ensures forall i :: 0 <= i < |Split(s, sep)| ==> sep !in Split(s, sep)[i]
    ensures Join(Split(s, sep), sep) == s
  {
    if s != "" {
      SplitParts(s[1..], sep);
      var rest := Split(s[1..], sep);
      if s[0] == sep {
        assert ([""] + rest)[1..] == rest;
        assert s == "" + [sep] + s[1..];
      } else {
        JoinPrefix(s[0], rest, sep);
        assert s == [s[0]] + s[1..];
      }
    }
  }

  /** A builder that appends a separator and a part has joined one part more. */
  lemma {:induction false} JoinSnoc(parts: seq<string>, x: string, sep: char)
    requires parts != []
    ensures Join(parts + [x], sep) == Join(parts, sep) + [sep] + x
  {
    if |parts| > 1 {
      JoinSnoc(parts[1..], x, sep);
      assert (parts + [x])[1..] == parts[1..] + [x];
    }
  }

  lemma {:induction false} JoinClean(parts: seq<string>, sep: char)
    requires |parts| >= 1 && forall i :: 0 <= i < |parts| ==> Clean(parts[i])
    ensures Clean(Join(parts, sep)) && Clean(parts[0]) && Join(parts, sep)[0] == parts[0][0]
  {
    if |parts| > 1 { JoinClean(parts[1..], sep); }
  }

  lemma {:induction false} CutAt(a: string, sep: char, b: string)
    requires sep !in a
    ensures Cut(a + [sep] + b, sep) == Some((a, b))
  {
    var s := a + [sep] + b;
    if a == "" {
      assert s[1..] == b;
    } else {
      CutAt(a[1..], sep, b);
      assert s[1..] == a[1..] + [sep] + b && s[0] == a[0] && s[0] != sep;
      assert [a[0]] + a[1..] == a;
    }
  }

  lemma {:induction false} CutIs(s: string, sep: char)
    ensures match Cut(s, sep)
            case Some(p) => s == p.0 + [sep] + p.1 && sep !in p.0
            case None => sep !in s
  {
    if s != "" && s[0] != sep { CutIs(s[1..], sep); }
  }

  /** Lines joined with line feeds come apart again the same way in both languages. */
  lemma {:induction false} JoinedLines(parts: seq<string>)
    requires |parts| >= 1 && forall i :: 0 <= i < |parts| ==> OneLine(parts[i])
    ensures var s := Join(parts, '\n');
            Trim(s) == s && Split(s, '\n') == parts && Lines(s) == parts
  {
    var s := Join(parts, '\n');
    JoinClean(parts, '\n');
    CleanTrims(s);
    SplitJoin(parts, '\n');
    WholeLines(s, parts);
  }

  lemma WholeLines(s: string, parts: seq<string>)
    requires Split(s, '\n') == parts && forall i :: 0 <= i < |parts| ==> Clean(parts[i])
    ensures Lines(s) == parts
  {
    assert Clean(parts[|parts| - 1]);
    forall i | 0 <= i < |parts| - 1 ensures StripCr(parts[i]) == parts[i] {
      assert Clean(parts[i]);
    }
  }

  // ---- what trimming takes -------------------------------------------------------------------

  /** The White_Space characters, one by one. */
  const WHITE_SPACE: set<int> :=
    {9, 10, 11, 12, 13, 32, 133, 160, 5760, 8192, 8193, 8194, 8195, 8196, 8197, 8198, 8199, 8200, 8201, 8202,
     8232, 8233, 8239, 8287, 12288}

  lemma SpacesAreThese(c: char)
    ensures IsSpace(c) <==> c as int in WHITE_SPACE
  {
  }

  /** Nothing but white space. */
  predicate Blank(s: string) {
    forall i :: 0 <= i < |s| ==> IsSpace(s[i])
  }

  lemma {:induction false} TrimLeftTakes(a: string, s: string)
    requires Blank(a) && (s == "" || !IsSpace(s[0]))
    ensures TrimLeft(a + s) == s
  {
    if a == "" {
      assert a + s == s;
    } else {
      TrimLeftTakes(a[1..], s);
      assert (a + s)[1..] == a[1..] + s;
    }
  }

  lemma {:induction false} TrimRightTakes(s: string, b: string)
    requires Blank(b) && (s == "" || !IsSpace(s[|s| - 1]))
    ensures TrimRight(s + b) == s
  {
    if b == "" {
      assert s + b == s;
    } else {
      TrimRightTakes(s, b[..|b| - 1]);
      assert (s + b)[..|s + b| - 1] == s + b[..|b| - 1];
    }
  }

  lemma {:induction false} TrimLeftLeaves(s: string) returns (a: string)
    ensures Blank(a) && s == a + TrimLeft(s)
  {
    a := "";
    if s != "" && IsSpace(s[0]) {
      var b := TrimLeftLeaves(s[1..]);
      a := [s[0]] + b;
    }
  }

  lemma {:induction false} TrimRightLeaves(s: string) returns (b: string)
    ensures Blank(b) && s == TrimRight(s) + b
  {
    b := "";
    if s != "" && IsSpace(s[|s| - 1]) {
      var a := TrimRightLeaves(s[..|s| - 1]);
      b := a + [s[|s| - 1]];
    }
  }

  /** Trimming removes white space and nothing else, from the ends and nowhere else: what is
      left is empty exactly for a blank text, and otherwise begins and ends with what is
      none. */
  lemma {:induction false} TrimTakesSpacesOnly(s: string) returns (a: string, b: string)
    ensures Blank(a) && Blank(b) && s == a + Trim(s) + b
    ensures Trim(s) == "" || Clean(Trim(s))
    ensures Trim(s) == "" <==> Blank(s)
  {
    a := TrimLeftLeaves(s);
    b := TrimRightLeaves(TrimLeft(s));
    TrimIs(s);
    assert s == a + (Trim(s) + b) == a + Trim(s) + b;
    if Trim(s) != "" { assert s[|a|] == Trim(s)[0]; }
  }

  /** White space around a text does not change what is left of it. */
  lemma {:induction false} TrimIgnoresPadding(a: string, s: string, b: string)
    requires Blank(a) && Blank(b)
    ensures Trim(a + s + b) == Trim(s) && (Blank(a + s + b) <==> Blank(s))
  {
    var x, y := TrimTakesSpacesOnly(s);
    var t := Trim(s);
    if t == "" {
      assert a + s + b == (a + s + b) + "";
      TrimLeftTakes(a + s + b, "");
    } else {
      var rest := t + (y + b);
      assert a + s + b == (a + x) + rest;
      assert rest[0] == t[0];
      TrimLeftTakes(a + x, rest);
      TrimRightTakes(t, y + b);
      assert (a + s + b)[|a + x|] == t[0];
    }
  }

  // ---- the lines that are not blank -------------------------------------------------------

  /** What a reader that trims every line and skips the blank ones gets to see. */
  function Words(lines: seq<string>): seq<string> {
    if lines == [] then []
    else (if Blank(lines[0]) then [] else [Trim(lines[0])]) + Words(lines[1..])
  }

  lemma {:induction false} WordsAppend(l: seq<string>, m: seq<string>)
    ensures Words(l + m) == Words(l) + Words(m)
  {
    if l == [] {
      assert l + m == m;
    } else {
      assert (l + m)[1..] == l[1..] + m;
      WordsAppend(l[1..], m);
    }
  }

  lemma {:induction false} WordsSame(l: seq<string>, m: seq<string>)
    requires |l| == |m|
    requires forall i :: 0 <= i < |l| ==> Trim(l[i]) == Trim(m[i]) && (Blank(l[i]) <==> Blank(m[i]))
    ensures Words(l) == Words(m)
  {
    if l != [] { WordsSame(l[1..], m[1..]); }
  }

  lemma {:induction false} WordsClean(lines: seq<string>)
    requires forall i :: 0 <= i < |lines| ==> '\n' !in lines[i]
    ensures forall w :: w in Words(lines) ==> OneLine(w)
  {
    if lines != [] {
      WordsClean(lines[1..]);
      var a, b := TrimTakesSpacesOnly(lines[0]);
      TrimIs(lines[0]);
    }
  }

  lemma BlankAtTheEnd(lines: seq<string>, a: string)
    requires Blank(a)
    ensures Words(lines + [a]) == Words(lines)
  {
    WordsAppend(lines, [a]);
    assert Words([a]) == [];
  }

  /** Padding one line, or putting in a blank one, leaves the words as they are. */
  lemma WordsIgnoreSpacing(lines: seq<string>, i: nat, a: string, b: string)
    requires Blank(a) && Blank(b)
    ensures i < |lines| ==> Words(lines[i := a + lines[i] + b]) == Words(lines)
    ensures i <= |lines| ==> Words(lines[..i] + [a] + lines[i..]) == Words(lines)
  {
    if i < |lines| {
      TrimIgnoresPadding(a, lines[i], b);
      WordsSame(lines[i := a + lines[i] + b], lines);
    }
    if i <= |lines| {
      BlankAtTheEnd(lines[..i], a);
      WordsAppend(lines[..i] + [a], lines[i..]);
      WordsAppend(lines[..i], lines[i..]);
      assert lines[..i] + lines[i..] == lines;
    }
  }

  /** The parts when one more character is split: another empty one, or a longer last one. */
  function Appended(parts: seq<string>, c: char, sep: char): seq<string>
    requires parts != []
  {
    if c == sep then parts + [""] else parts[..|parts| - 1] + [parts[|parts| - 1] + [c]]
  }

  lemma AppendedTail(x: string, parts: seq<string>, c: char, sep: char)
    requires parts != []
    ensures Appended([x] + parts, c, sep) == [x] + Appended(parts, c, sep)
  {
  }

  lemma AppendedHead(d: char, parts: seq<string>, c: char, sep: char)
    requires parts != []
    ensures var more := Appended(parts, c, sep);
            Appended([[d] + parts[0]] + parts[1..], c, sep) == [[d] + more[0]] + more[1..]
  {
    if |parts| == 1 {
      assert [d] + (parts[0] + [c]) == [d] + parts[0] + [c];
    }
  }

  lemma {:induction false} SplitSnoc(s: string, c: char, sep: char)
    ensures Split(s + [c], sep) == Appended(Split(s, sep), c, sep)
  {
    if s == "" {
      assert s + [c] == [c] && [c][1..] == "" && [c] + "" == "" + [c];
    } else {
      SplitSnoc(s[1..], c, sep);
      assert (s + [c])[1..] == s[1..] + [c];
      if s[0] == sep {
        AppendedTail("", Split(s[1..], sep), c, sep);
      } else {
        AppendedHead(s[0], Split(s[1..], sep), c, sep);
      }
    }
  }

  lemma WordsAfterSpace(s: string, c: char)
    requires IsSpace(c)
    ensures Words(Split([c] + s, '\n')) == Words(Split(s, '\n'))
  {
    var l := Split(s, '\n');
    assert ([c] + s)[1..] == s;
    if c == '\n' {
      assert ([""] + l)[1..] == l;
    } else {
      var m := Split([c] + s, '\n');
      TrimIgnoresPadding([c], l[0], "");
      assert m[0] == [c] + l[0] + "" && m[1..] == l[1..];
    }
  }

  lemma WordsBeforeSpace(s: string, c: char)
    requires IsSpace(c)
    ensures Words(Split(s + [c], '\n')) == Words(Split(s, '\n'))
  {
    var l := Split(s, '\n');
    SplitSnoc(s, c, '\n');
    if c == '\n' {
      BlankAtTheEnd(l, "");
    } else {
      var k := |l| - 1;
      WordsIgnoreSpacing(l, k, "", [c]);
      assert "" + l[k] + [c] == l[k] + [c];
      assert l[..k] + [l[k] + [c]] == l[k := l[k] + [c]];
    }
  }

  lemma {:induction false} WordsOfTrimLeft(s: string)
    ensures Words(Split(TrimLeft(s), '\n')) == Words(Split(s, '\n'))
  {
    if s != "" && IsSpace(s[0]) {
      WordsOfTrimLeft(s[1..]);
      WordsAfterSpace(s[1..], s[0]);
      assert [s[0]] + s[1..] == s;
    }
  }

  lemma {:induction false} WordsOfTrimRight(s: string)
    ensures Words(Split(TrimRight(s), '\n')) == Words(Split(s, '\n'))
  {
    if s != "" && IsSpace(s[|s| - 1]) {
      WordsOfTrimRight(s[..|s| - 1]);
      WordsBeforeSpace(s[..|s| - 1], s[|s| - 1]);
      assert s[..|s| - 1] + [s[|s| - 1]] == s;
    }
  }

  /** Trimming a whole text takes no word from it. */
  lemma WordsOfTrim(s: string)
    ensures Words(Split(Trim(s), '\n')) == Words(Split(s, '\n'))
  {
    WordsOfTrimRight(TrimLeft(s));
    WordsOfTrimLeft(s);
  }

  lemma StripCrTrims(s: string)
    ensures Trim(StripCr(s)) == Trim(s) && (Blank(StripCr(s)) <==> Blank(s))
  {
    var t := StripCr(s);
    if t != s {
      assert s == "" + t + "\r";
      TrimIgnoresPadding("", t, "\r");
    }
  }

  /** `str::lines` cuts where a split at line feeds does, but for a last empty line. */
  lemma LinesLikeSplit(s: string)
    ensures s == "" <==> Lines(s) == []
    ensures var parts, lines := Split(s, '\n'), Lines(s);
            && (|parts| == |lines| || (|parts| == |lines| + 1 && parts[|lines|] == ""))
            && forall i :: 0 <= i < |lines| ==> lines[i] == parts[i] || lines[i] == StripCr(parts[i])
  {
    SplitParts(s, '\n');
  }

  /** They show a trimming reader the same first line and the same words behind it. */
  lemma WordsOfLines(s: string)
    requires s != ""
    ensures Lines(s) != [] && Trim(Lines(s)[0]) == Trim(Split(s, '\n')[0])
    ensures Words(Lines(s)[1..]) == Words(Split(s, '\n')[1..])
  {
    var parts, lines := Split(s, '\n'), Lines(s);
    LinesLikeSplit(s);
    forall i | 0 <= i < |lines| ensures Trim(lines[i]) == Trim(parts[i]) && (Blank(lines[i]) <==> Blank(parts[i])) {
      StripCrTrims(parts[i]);
    }
    LastLineIsBlank(parts[1..], lines[1..]);
  }

  lemma LastLineIsBlank(parts: seq<string>, lines: seq<string>)
    requires |parts| == |lines| || (|parts| == |lines| + 1 && parts[|lines|] == "")
    requires forall i :: 0 <= i < |lines| ==> Trim(lines[i]) == Trim(parts[i]) && (Blank(lines[i]) <==> Blank(parts[i]))
    ensures Words(lines) == Words(parts)
  {
    WordsSame(lines, parts[..|lines|]);
    if |parts| == |lines| {
      assert parts[..|lines|] == parts;
    } else {
      assert parts == parts[..|lines|] + [""];
      BlankAtTheEnd(parts[..|lines|], "");
    }
  }
}
