/** Path records: printed by the library, parsed by Go. */
module Paths {
  import opened Common
  import opened OpTypes
  import opened Text
  import opened Numbers

  datatype Kind = IpPath | RelayPath | CustomPath

  /** One open path as the library knows it. */
  datatype RustPath = RustPath(kind: Kind, selected: bool, micros: nat, remote: string)

  /** One open path as Go reports it; `rtt` is an int64 of nanoseconds. */
  datatype GoPath = GoPath(kind: string, selected: bool, remote: string, rtt: int)

  const FIELDS: nat := 4

  function KindText(k: Kind): string {
    match k
    case IpPath => "ip"
    case RelayPath => "relay"
    case CustomPath => "custom"
  }

  // ---- the printer ------------------------------------------------------------------------

  function PrintPath(p: RustPath): string {
    KindText(p.kind) + ['\t'] + ((if p.selected then "1" else "0") + ['\t'] + (Decimal(p.micros) + ['\t'] + p.remote))
  }

  function PrintLines(ps: seq<RustPath>): seq<string> {
    if ps == [] then [] else [PrintPath(ps[0])] + PrintLines(ps[1..])
  }

  function Print(ps: seq<RustPath>): string {
    Join(PrintLines(ps), '\n')
  }

  // ---- the parser -------------------------------------------------------------------------

  /** `strings.SplitN`: at most `n` fields, the last one unsplit. */
  function SplitN(s: string, sep: char, n: nat): seq<string>
    requires n > 0
    decreases n
  {
    if n == 1 then [s]
    else match Cut(s, sep)
      case None => [s]
      case Some(p) => [p.0] + SplitN(p.1, sep, n - 1)
  }

  /** Two's-complement wrap-around of a 64-bit product. */
  function Wrap64(x: int): int {
    (x + I64_LIMIT) % U64_LIMIT - I64_LIMIT
  }

  function ParsePath(line: string): Result<GoPath, ErrKind> {
    var fields := SplitN(line, '\t', FIELDS);
    if |fields| != FIELDS then Err(Internal)
    else match ParseInt64(fields[2])
      case None => Err(Internal)
      case Some(micros) => Ok(GoPath(fields[0], fields[1] == "1", fields[3], Wrap64(micros * 1000)))
  }

  function ParseLines(lines: seq<string>): Result<seq<GoPath>, ErrKind> {
    if lines == [] then Ok([])
    else match ParsePath(lines[0])
      case Err(e) => Err(e)
      case Ok(p) =>
        match ParseLines(lines[1..])
        case Err(e) => Err(e)
        case Ok(ps) => Ok([p] + ps)
  }

  function Parse(text: string): Result<seq<GoPath>, ErrKind> {
    if text == "" then Ok([]) else ParseLines(Split(text, '\n'))
  }

  lemma {:induction false} OntoNext(done: seq<GoPath>, lines: seq<string>, p: GoPath)
    requires lines != [] && ParsePath(lines[0]) == Ok(p)
    ensures Onto(done, ParseLines(lines)) == Onto(done + [p], ParseLines(lines[1..]))
  {
    var r := ParseLines(lines[1..]);
    if r.Ok? { assert done + ([p] + r.value) == done + [p] + r.value; }
  }

  /** `Conn.Paths`, given the library's text. */
  method ReadPaths(text: string) returns (r: Result<seq<GoPath>, ErrKind>)
    ensures r == Parse(text)
  {
    if text == "" { return Ok([]); }
    var lines := Split(text, '\n');
    var paths := [];
    assert Onto([], ParseLines(lines)) == ParseLines(lines) by {
      if ParseLines(lines).Ok? { assert [] + ParseLines(lines).value == ParseLines(lines).value; }
    }
    assert lines[0..] == lines;
    for i := 0 to |lines|
      invariant Onto(paths, ParseLines(lines[i..])) == ParseLines(lines)
    {
      var p := ParsePath(lines[i]);
      assert lines[i..][1..] == lines[i + 1..];
      if p.Err? { return Err(p.error); }
      OntoNext(paths, lines[i..], p.value);
      paths := paths + [p.value];
    }
    assert lines[|lines|..] == [] && paths + [] == paths;
    r := Ok(paths);
  }

  // ---- one record -----------------------------------------------------------------------------

  /** The same record on the Go side, with the round-trip time exact. */
  function Exact(p: RustPath): GoPath {
    GoPath(KindText(p.kind), p.selected, p.remote, p.micros * 1000)
  }

  function ExactAll(ps: seq<RustPath>): seq<GoPath> {
    if ps == [] then [] else [Exact(ps[0])] + ExactAll(ps[1..])
  }

  /** The nanoseconds fit an int64. */
  predicate Fits(p: RustPath) {
    p.micros <= (I64_LIMIT - 1) / 1000
  }

  predicate OnOneLine(p: RustPath) {
    '\n' !in p.remote
  }

  lemma FieldsBack(p: RustPath)
    ensures var f := SplitN(PrintPath(p), '\t', FIELDS);
            && |f| == FIELDS && f[0] == KindText(p.kind) && (f[1] == "1" <==> p.selected)
            && f[2] == Decimal(p.micros) && f[3] == p.remote
  {
    var flag := if p.selected then "1" else "0";
    var last := Decimal(p.micros) + ['\t'] + p.remote;
    DecimalValue(p.micros);
    CutAt(KindText(p.kind), '\t', flag + ['\t'] + last);
    CutAt(flag, '\t', last);
    CutAt(Decimal(p.micros), '\t', p.remote);
    ThreeCuts(PrintPath(p), KindText(p.kind), flag, Decimal(p.micros), p.remote);
  }

  lemma ThreeCuts(s: string, a: string, b: string, c: string, d: string)
    requires Cut(s, '\t').Some? && Cut(s, '\t').value.0 == a
    requires var t := Cut(s, '\t').value.1;
             && Cut(t, '\t').Some? && Cut(t, '\t').value.0 == b
             && Cut(Cut(t, '\t').value.1, '\t') == Some((c, d))
    ensures SplitN(s, '\t', 4) == [a, b, c, d]
  {
    var t := Cut(s, '\t').value.1;
    assert SplitN(d, '\t', 1) == [d];
    assert SplitN(Cut(t, '\t').value.1, '\t', 2) == [c] + [d];
    assert SplitN(t, '\t', 3) == [b] + ([c] + [d]);
    assert [a] + ([b] + ([c] + [d])) == [a, b, c, d];
  }

  lemma WrapExact(n: int)
    requires 0 <= n
    ensures Wrap64(n) == n <==> n < I64_LIMIT
  {
  }

  /** Wrapping changes a number by a multiple of two to the 64th, into the range of an int64. */
  lemma WrapStays(n: int)
    ensures (Wrap64(n) - n) % U64_LIMIT == 0 && 0 - I64_LIMIT <= Wrap64(n) < I64_LIMIT
  {
    var q := (n + I64_LIMIT) / U64_LIMIT;
    assert Wrap64(n) - n == 0 - q * U64_LIMIT;
  }

  /** The line consists of these four fields; only the last may hold a tab. */
  predicate FieldsAre(line: string, kind: string, flag: string, micros: string, remote: string) {
    && line == kind + "\t" + flag + "\t" + micros + "\t" + remote
    && '\t' !in kind && '\t' !in flag && '\t' !in micros
  }

  lemma FieldsCut(line: string, a: string, b: string, c: string, d: string)
    requires FieldsAre(line, a, b, c, d)
    ensures SplitN(line, '\t', FIELDS) == [a, b, c, d]
  {
    assert line == a + ['\t'] + (b + ['\t'] + (c + ['\t'] + d));
    CutAt(a, '\t', b + ['\t'] + (c + ['\t'] + d));
    CutAt(b, '\t', c + ['\t'] + d);
    CutAt(c, '\t', d);
    ThreeCuts(line, a, b, c, d);
  }

  lemma {:induction false} SplitNIs(line: string)
    ensures var f := SplitN(line, '\t', FIELDS); |f| == FIELDS ==> FieldsAre(line, f[0], f[1], f[2], f[3])
  {
    CutIs(line, '\t');
    if Cut(line, '\t').Some? {
      var p := Cut(line, '\t').value;
      CutIs(p.1, '\t');
      if Cut(p.1, '\t').Some? {
        var q := Cut(p.1, '\t').value;
        CutIs(q.1, '\t');
        if Cut(q.1, '\t').Some? {
          var r := Cut(q.1, '\t').value;
          ThreeCuts(line, p.0, q.0, r.0, r.1);
          assert line == p.0 + "\t" + q.0 + "\t" + r.0 + "\t" + r.1;
        } else {
          assert SplitN(q.1, '\t', 2) == [q.1];
          assert |SplitN(p.1, '\t', 3)| == 2;
        }
      } else {
        assert |SplitN(p.1, '\t', 3)| == 1;
      }
    }
  }

  /** What any line at all is read as: four fields, the second of which says whether the path
      is selected and the third how long a round trip takes, in microseconds. Every other line
      is refused. */
  lemma {:induction false} RecordReads(line: string, kind: string, flag: string, micros: string, remote: string)
    ensures FieldsAre(line, kind, flag, micros, remote) ==>
              ParsePath(line) == match ParseInt64(micros)
                                 case None => Err(Internal)
                                 case Some(n) => Ok(GoPath(kind, flag == "1", remote, Wrap64(n * 1000)))
    ensures ParsePath(line).Ok? ==> exists a, b, c, d :: FieldsAre(line, a, b, c, d)
    ensures ParsePath(line).Err? ==> ParsePath(line).error == Internal
  {
    if FieldsAre(line, kind, flag, micros, remote) { FieldsCut(line, kind, flag, micros, remote); }
    SplitNIs(line);
  }

  /** A record as it stands in the text. */
  lemma PrintedRecord(p: RustPath)
    ensures FieldsAre(PrintPath(p), KindText(p.kind), if p.selected then "1" else "0", Decimal(p.micros), p.remote)
  {
    DecimalValue(p.micros);
  }

  /** The list is read line by line: it is accepted exactly if every line is, in order. */
  lemma {:induction false} LinesRead(lines: seq<string>, ps: seq<GoPath>)
    ensures ParseLines(lines) == Ok(ps) <==>
            |ps| == |lines| && forall i :: 0 <= i < |lines| ==> ParsePath(lines[i]) == Ok(ps[i])
    ensures ParseLines(lines).Err? ==> ParseLines(lines).error == Internal
  {
    if lines != [] {
      SplitNIs(lines[0]);
      if ps != [] {
        LinesRead(lines[1..], ps[1..]);
        SplitHead(ParsePath(lines[0]), ParseLines(lines[1..]), ps[0], ps[1..]);
        assert [ps[0]] + ps[1..] == ps;
      } else {
        LinesRead(lines[1..], []);
      }
    }
  }

  /** A record's own line parses to the same record exactly when its time fits; otherwise the
      time wraps, or does not parse at all. */
  lemma {:induction false} PathBack(p: RustPath)
    ensures ParsePath(PrintPath(p)) == Ok(Exact(p)) <==> Fits(p)
    ensures ParsePath(PrintPath(p)) ==
            if p.micros < I64_LIMIT then Ok(Exact(p).(rtt := Wrap64(p.micros * 1000))) else Err(Internal)
    ensures p.micros < I64_LIMIT ==>
              var g := ParsePath(PrintPath(p)).value;
              && g.kind == (match p.kind case IpPath => "ip" case RelayPath => "relay" case CustomPath => "custom")
              && g.selected == p.selected && g.remote == p.remote
              && (g.rtt - p.micros * 1000) % U64_LIMIT == 0 && 0 - I64_LIMIT <= g.rtt < I64_LIMIT
  {
    FieldsBack(p);
    WrapStays(p.micros * 1000);
    DecimalInt64(p.micros);
    WrapExact(p.micros * 1000);
  }

  // ---- the whole list -----------------------------------------------------------------------

  lemma {:induction false} LinesBack(ps: seq<RustPath>)
    ensures ParseLines(PrintLines(ps)) == Ok(ExactAll(ps)) <==> forall i :: 0 <= i < |ps| ==> Fits(ps[i])
    ensures |PrintLines(ps)| == |ps|
  {
    if ps != [] {
      PathBack(ps[0]);
      LinesBack(ps[1..]);
      SplitHead(ParsePath(PrintPath(ps[0])), ParseLines(PrintLines(ps[1..])), Exact(ps[0]), ExactAll(ps[1..]));
      assert (forall i :: 0 <= i < |ps| ==> Fits(ps[i])) <==>
             Fits(ps[0]) && (forall i :: 0 <= i < |ps[1..]| ==> Fits(ps[1..][i]));
    }
  }

  lemma SplitHead(h: Result<GoPath, ErrKind>, t: Result<seq<GoPath>, ErrKind>, p: GoPath, ps: seq<GoPath>)
    ensures (h.Ok? && t.Ok? && [h.value] + t.value == [p] + ps) <==> h == Ok(p) && t == Ok(ps)
  {
    if h.Ok? && t.Ok? && [h.value] + t.value == [p] + ps {
      assert ([h.value] + t.value)[0] == ([p] + ps)[0];
      assert ([h.value] + t.value)[1..] == t.value && ([p] + ps)[1..] == ps;
    }
  }

  lemma {:induction false} ParsedLength(lines: seq<string>)
    ensures ParseLines(lines).Ok? ==> |ParseLines(lines).value| == |lines|
  {
    if lines != [] { ParsedLength(lines[1..]); }
  }

  lemma {:induction false} SplitCounts(a: string, sep: char, b: string)
    ensures |Split(a + [sep] + b, sep)| == |Split(a, sep)| + |Split(b, sep)|
  {
    var s := a + [sep] + b;
    if a == "" {
      assert s[1..] == b;
    } else {
      SplitCounts(a[1..], sep, b);
      assert s[1..] == a[1..] + [sep] + b;
    }
  }

  lemma {:induction false} SplitMore(s: string, sep: char)
    ensures |Split(s, sep)| == 1 <==> sep !in s
  {
    if s != "" { SplitMore(s[1..], sep); }
  }

  /** Joined parts split into as many again only if none of them contains the separator. */
  lemma {:induction false} JoinCounts(parts: seq<string>, sep: char)
    requires parts != []
    ensures |Split(Join(parts, sep), sep)| >= |parts|
    ensures |Split(Join(parts, sep), sep)| == |parts| ==> forall i :: 0 <= i < |parts| ==> sep !in parts[i]
  {
    SplitMore(parts[0], sep);
    if |parts| > 1 {
      SplitCounts(parts[0], sep, Join(parts[1..], sep));
      JoinCounts(parts[1..], sep);
    }
  }

  lemma LineFeeds(p: RustPath)
    ensures '\n' in PrintPath(p) <==> !OnOneLine(p)
  {
    DecimalIsWord(p.micros);
    var s := PrintPath(p);
    if !OnOneLine(p) {
      var i :| 0 <= i < |p.remote| && p.remote[i] == '\n';
      assert s[|s| - |p.remote| + i] == '\n';
    }
  }

  lemma {:induction false} PrintLineAt(ps: seq<RustPath>)
    ensures |PrintLines(ps)| == |ps| && forall i :: 0 <= i < |ps| ==> PrintLines(ps)[i] == PrintPath(ps[i])
  {
    if ps != [] { PrintLineAt(ps[1..]); }
  }

  lemma {:induction false} ExactLength(ps: seq<RustPath>)
    ensures |ExactAll(ps)| == |ps|
  {
    if ps != [] { ExactLength(ps[1..]); }
  }

  /** Parsing the printed list gives back the same records exactly when no remote text has a
      line feed and every round-trip time fits; tabs in the remote text are harmless. */
  lemma {:induction false} RoundTripIff(ps: seq<RustPath>)
    ensures Parse(Print(ps)) == Ok(ExactAll(ps)) <==>
            forall i :: 0 <= i < |ps| ==> OnOneLine(ps[i]) && Fits(ps[i])
  {
    if ps != [] {
      var lines := PrintLines(ps);
      PrintLineAt(ps);
      ExactLength(ps);
      LinesBack(ps);
      JoinCounts(lines, '\n');
      ParsedLength(Split(Print(ps), '\n'));
      forall i | 0 <= i < |ps| ensures '\n' in lines[i] <==> !OnOneLine(ps[i]) { LineFeeds(ps[i]); }
      PrintNotEmpty(ps);
      if forall i :: 0 <= i < |ps| ==> OnOneLine(ps[i]) {
        SplitJoin(lines, '\n');
      }
    }
  }

  lemma PrintNotEmpty(ps: seq<RustPath>)
    requires ps != []
    ensures Print(ps) != ""
  {
    assert PrintPath(ps[0]) != "";
  }
}
