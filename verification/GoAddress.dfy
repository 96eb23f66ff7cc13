/** The Go side of the address text form. */
module GoAddress {
  import opened Common
  import opened OpTypes
  import opened Text
  import opened Numbers
  import opened Address

  // ---- the codec ------------------------------------------------------------------------

  function IpLines(direct: seq<string>): seq<string> {
    if direct == [] then [] else ["ip " + direct[0]] + IpLines(direct[1..])
  }

  function RelayLines(relay: string): seq<string> {
    if relay == "" then [] else ["relay " + relay]
  }

  /** The transport lines of an address: primary relay, direct addresses, the rest. */
  function GoLines(a: GoAddr): seq<string> {
    RelayLines(a.relay) + IpLines(a.direct) + a.extra
  }

  function GoEncode(a: GoAddr): string {
    Join([Hex(a.id)] + GoLines(a), '\n')
  }

  /** The loop body of `decodeAddr`, on a trimmed line. */
  function GoLine(c: Codec, a: GoAddr, line: string): Result<GoAddr, ErrKind> {
    if line == "" then Ok(a)
    else match Cut(line, ' ')
      case None => Err(InvalidInput)
      case Some(p) =>
        if p.0 == "relay" && a.relay == "" then Ok(a.(relay := p.1))
        else if p.0 == "ip" then
          (match c.goIp(p.1) case None => Err(InvalidInput) case Some(n) => Ok(a.(direct := a.direct + [n])))
        else Ok(a.(extra := a.extra + [line]))
  }

  function GoTake(c: Codec, a: GoAddr, lines: seq<string>): Result<GoAddr, ErrKind>
    decreases |lines|
  {
    if lines == [] then Ok(a)
    else match GoLine(c, a, Trim(lines[0]))
      case Err(e) => Err(e)
      case Ok(b) => GoTake(c, b, lines[1..])
  }

  function GoDecode(c: Codec, text: string): Result<GoAddr, ErrKind> {
    var lines := Split(Trim(text), '\n');
    if lines[0] == "" then Err(InvalidInput)
    else match c.id(Trim(lines[0]))
      case None => Err(KeyParsing)
      case Some(id) => GoTake(c, GoAddr(id, "", [], []), lines[1..])
  }

  // ---- the loops --------------------------------------------------------------------------

  lemma {:induction false} IpLinesSnoc(direct: seq<string>, x: string)
    ensures IpLines(direct + [x]) == IpLines(direct) + ["ip " + x]
  {
    if direct != [] {
      IpLinesSnoc(direct[1..], x);
      assert (direct + [x])[1..] == direct[1..] + [x];
    }
  }

  /** The loop of `encode` over the direct addresses; `parts` are the lines so far. */
  method EncodeDirect(start: string, direct: seq<string>, ghost parts: seq<string>) returns (text: string)
    requires parts != [] && start == Join(parts, '\n')
    ensures text == Join(parts + IpLines(direct), '\n')
  {
    text := start;
    assert parts + IpLines(direct[..0]) == parts;
    for i := 0 to |direct|
      invariant text == Join(parts + IpLines(direct[..i]), '\n')
    {
      text := text + "\nip " + direct[i];
      JoinSnoc(parts + IpLines(direct[..i]), "ip " + direct[i], '\n');
      IpLinesSnoc(direct[..i], direct[i]);
      assert direct[..i + 1] == direct[..i] + [direct[i]];
      assert parts + IpLines(direct[..i + 1]) == parts + IpLines(direct[..i]) + ["ip " + direct[i]];
      assert "\n" + "ip " == "\nip ";
    }
    assert direct[..|direct|] == direct;
  }

  /** The loop of `encode` over the lines kept verbatim. */
  method EncodeExtra(start: string, extra: seq<string>, ghost parts: seq<string>) returns (text: string)
    requires parts != [] && start == Join(parts, '\n')
    ensures text == Join(parts + extra, '\n')
  {
    text := start;
    assert parts + extra[..0] == parts;
    for i := 0 to |extra|
      invariant text == Join(parts + extra[..i], '\n')
    {
      text := text + "\n" + extra[i];
      JoinSnoc(parts + extra[..i], extra[i], '\n');
      assert parts + extra[..i + 1] == parts + extra[..i] + [extra[i]];
    }
    assert extra[..|extra|] == extra;
  }

  /** `EndpointAddr.encode`: the text is built line by line. */
  method Encode(a: GoAddr) returns (text: string)
    ensures text == GoEncode(a)
  {
    text := Hex(a.id);
    if a.relay != "" {
      text := text + "\nrelay " + a.relay;
      JoinSnoc([Hex(a.id)], "relay " + a.relay, '\n');
      assert "\n" + "relay " == "\nrelay ";
    }
    ghost var parts := [Hex(a.id)] + RelayLines(a.relay);
    text := EncodeDirect(text, a.direct, parts);
    text := EncodeExtra(text, a.extra, parts + IpLines(a.direct));
    assert parts + IpLines(a.direct) + a.extra == [Hex(a.id)] + GoLines(a);
  }

  /** `decodeAddr`. */
  method Decode(c: Codec, text: string) returns (r: Result<GoAddr, ErrKind>)
    ensures r == GoDecode(c, text)
  {
    var lines := Split(Trim(text), '\n');
    if lines[0] == "" { return Err(InvalidInput); }
    var id := c.id(Trim(lines[0]));
    if id.None? { return Err(KeyParsing); }
    var addr := GoAddr(id.value, "", [], []);
    for i := 1 to |lines|
      invariant GoTake(c, addr, lines[i..]) == GoDecode(c, text)
    {
      var line := Trim(lines[i]);
      assert lines[i..][1..] == lines[i + 1..];
      if line == "" { continue; }
      var p := Cut(line, ' ');
      if p.None? { return Err(InvalidInput); }
      var kind, rest := p.value.0, p.value.1;
      if kind == "relay" && addr.relay == "" {
        addr := addr.(relay := rest);
      } else if kind == "ip" {
        var ap := c.goIp(rest);
        if ap.None? { return Err(InvalidInput); }
        addr := addr.(direct := addr.direct + [ap.value]);
      } else {
        addr := addr.(extra := addr.extra + [line]);
      }
    }
    assert lines[|lines|..] == [];
    r := Ok(addr);
  }

  // ---- what a text says, line by line -------------------------------------------------------

  // The words of a text are its lines that are not blank, trimmed. These say, from the words
  // after the first alone, what an address is read from: where each word begins tells all.

  /** A line that can be read: it has a space, and an `ip` line has an address. */
  predicate Readable(c: Codec, w: string) {
    ' ' in w && ("ip " <= w ==> c.goIp(w[3..]).Some?)
  }

  function FirstRelay(ws: seq<string>): string {
    if ws == [] then "" else if "relay " <= ws[0] then ws[0][6..] else FirstRelay(ws[1..])
  }

  function Directs(c: Codec, ws: seq<string>): seq<string>
    requires forall w :: w in ws ==> Readable(c, w)
  {
    if ws == [] then []
    else if "ip " <= ws[0] then
      assert Readable(c, ws[0]);
      [c.goIp(ws[0][3..]).value] + Directs(c, ws[1..])
    else Directs(c, ws[1..])
  }

  /** Every other line, a relay after the first included. */
  function Others(ws: seq<string>, relaySeen: bool): seq<string> {
    if ws == [] then []
    else if "ip " <= ws[0] then Others(ws[1..], relaySeen)
    else if "relay " <= ws[0] && !relaySeen then Others(ws[1..], true)
    else [ws[0]] + Others(ws[1..], relaySeen)
  }

  /** What one line does to the address. */
  lemma {:induction false} GoLineReads(c: Codec, a: GoAddr, w: string)
    requires OneLine(w)
    ensures GoLine(c, a, w) ==
            if !Readable(c, w) then Err(InvalidInput)
            else if "ip " <= w then Ok(a.(direct := a.direct + [c.goIp(w[3..]).value]))
            else if "relay " <= w && a.relay == "" then Ok(a.(relay := w[6..]))
            else Ok(a.(extra := a.extra + [w]))
    ensures "relay " <= w ==> w[6..] != ""
  {
    CutIs(w, ' ');
    assert "relay" + " " == "relay " && "ip" + " " == "ip ";
    if ' ' in w {
      KindIs(w, "relay");
      KindIs(w, "ip");
    }
    assert "relay " <= w ==> w[5] == ' ' && !IsSpace(w[|w| - 1]);
  }

  /** The loop over the lines, for an address that may have a relay already. */
  lemma {:induction false} GoTakeReads(c: Codec, a: GoAddr, lines: seq<string>)
    requires forall i :: 0 <= i < |lines| ==> '\n' !in lines[i]
    ensures var ws := Words(lines);
            if exists w :: w in ws && !Readable(c, w) then GoTake(c, a, lines) == Err(InvalidInput)
            else
              && (forall w :: w in ws ==> Readable(c, w))
              && GoTake(c, a, lines) == Ok(GoAddr(a.id, if a.relay != "" then a.relay else FirstRelay(ws),
                                                  a.direct + Directs(c, ws), a.extra + Others(ws, a.relay != "")))
    decreases |lines|
  {
    if lines == [] {
      assert a.direct + [] == a.direct && a.extra + [] == a.extra;
    } else {
      var x, y := TrimTakesSpacesOnly(lines[0]);
      var w, rest := Trim(lines[0]), Words(lines[1..]);
      if w == "" {
        GoTakeReads(c, a, lines[1..]);
        assert Words(lines) == rest;
      } else {
        TrimIs(lines[0]);
        GoLineReads(c, a, w);
        assert Words(lines) == [w] + rest && ([w] + rest)[1..] == rest;
        assert forall v :: v in [w] + rest <==> v == w || v in rest;
        if Readable(c, w) {
          var b := GoLine(c, a, w).value;
          GoTakeReads(c, b, lines[1..]);
          GoTakeJoins(c, a, b, w, rest);
        }
      }
    }
  }

  /** Reading one word and then the rest is reading them all. */
  lemma GoTakeJoins(c: Codec, a: GoAddr, b: GoAddr, w: string, rest: seq<string>)
    requires OneLine(w) && Readable(c, w) && GoLine(c, a, w) == Ok(b)
    ensures (forall v :: v in rest ==> Readable(c, v)) ==>
              var ws := [w] + rest;
              && (forall v :: v in ws ==> Readable(c, v))
              && b.id == a.id
              && (if b.relay != "" then b.relay else FirstRelay(rest)) == (if a.relay != "" then a.relay else FirstRelay(ws))
              && b.direct + Directs(c, rest) == a.direct + Directs(c, ws)
              && b.extra + Others(rest, b.relay != "") == a.extra + Others(ws, a.relay != "")
  {
    GoLineReads(c, a, w);
    assert ([w] + rest)[1..] == rest;
    if forall v :: v in rest ==> Readable(c, v) {
      DirectsJoin(c, w, rest);
      if "ip " <= w {
        assert a.direct + [c.goIp(w[3..]).value] + Directs(c, rest) == a.direct + ([c.goIp(w[3..]).value] + Directs(c, rest));
      } else if !("relay " <= w && a.relay == "") {
        assert a.extra + [w] + Others(rest, a.relay != "") == a.extra + ([w] + Others(rest, a.relay != ""));
      }
    }
  }

  lemma DirectsJoin(c: Codec, w: string, rest: seq<string>)
    requires Readable(c, w) && forall v :: v in rest ==> Readable(c, v)
    ensures forall v :: v in [w] + rest ==> Readable(c, v)
    ensures Directs(c, [w] + rest) ==
            if "ip " <= w then [c.goIp(w[3..]).value] + Directs(c, rest) else Directs(c, rest)
  {
    assert ([w] + rest)[1..] == rest;
  }

  /** What `decodeAddr` reads off a text: the address its lines say, whatever white space and
      blank lines are around them, or which error. Nothing else is accepted, and no line that
      is not blank is passed over. */
  lemma {:induction false} GoReads(c: Codec, text: string)
    ensures var ws := Words(Split(text, '\n'));
            if ws == [] then GoDecode(c, text) == Err(InvalidInput)
            else match c.id(ws[0])
              case None => GoDecode(c, text) == Err(KeyParsing)
              case Some(id) =>
                if exists w :: w in ws[1..] && !Readable(c, w) then GoDecode(c, text) == Err(InvalidInput)
                else
                  && (forall w :: w in ws[1..] ==> Readable(c, w))
                  && GoDecode(c, text) ==
                       Ok(GoAddr(id, FirstRelay(ws[1..]), Directs(c, ws[1..]), Others(ws[1..], false)))
  {
    WordsOfTrim(text);
    var trimmed := Trim(text);
    var lines := Split(trimmed, '\n');
    SplitParts(trimmed, '\n');
    TrimIs(text);
    FirstLineCounts(trimmed);
    if lines[0] != "" {
      var id := c.id(Trim(lines[0]));
      if id.Some? {
        GoTakeReads(c, GoAddr(id.value, "", [], []), lines[1..]);
        var ws := Words(lines[1..]);
        assert (forall w :: w in ws ==> Readable(c, w)) ==> [] + Directs(c, ws) == Directs(c, ws);
        assert [] + Others(ws, false) == Others(ws, false);
      }
    }
  }

  /** The first line of a trimmed text is its first word, unless it has none. */
  lemma FirstLineCounts(s: string)
    requires s == "" || Clean(s)
    ensures var lines := Split(s, '\n');
            if lines[0] == "" then Words(lines) == [] else Words(lines) == [Trim(lines[0])] + Words(lines[1..])
  {
    if s != "" {
      assert Split(s, '\n')[0][0] == s[0];
    }
  }

  /** White space around any line, and blank lines anywhere, make no difference to Go. */
  lemma {:induction false} GoIgnoresSpacing(c: Codec, lines: seq<string>, i: nat, a: string, b: string)
    requires lines != [] && forall k :: 0 <= k < |lines| ==> '\n' !in lines[k]
    requires Blank(a) && Blank(b) && '\n' !in a && '\n' !in b
    ensures i < |lines| ==>
              GoDecode(c, Join(lines[i := a + lines[i] + b], '\n')) == GoDecode(c, Join(lines, '\n'))
    ensures i <= |lines| ==>
              GoDecode(c, Join(lines[..i] + [a] + lines[i..], '\n')) == GoDecode(c, Join(lines, '\n'))
  {
    WordsIgnoreSpacing(lines, i, a, b);
    if i < |lines| { GoSeesWords(c, lines[i := a + lines[i] + b], lines); }
    if i <= |lines| { GoSeesWords(c, lines[..i] + [a] + lines[i..], lines); }
  }

  lemma GoSeesWords(c: Codec, l: seq<string>, m: seq<string>)
    requires l != [] && m != [] && Words(l) == Words(m)
    requires forall k :: 0 <= k < |l| ==> '\n' !in l[k]
    requires forall k :: 0 <= k < |m| ==> '\n' !in m[k]
    ensures GoDecode(c, Join(l, '\n')) == GoDecode(c, Join(m, '\n'))
  {
    SplitJoin(l, '\n');
    SplitJoin(m, '\n');
    GoReads(c, Join(l, '\n'));
    GoReads(c, Join(m, '\n'));
  }

  // ---- normal addresses -------------------------------------------------------------------

  predicate ExtraOk(relay: string, line: string) {
    && OneLine(line) && Cut(line, ' ').Some?
    && Cut(line, ' ').value.0 != "ip"
    && (Cut(line, ' ').value.0 == "relay" ==> relay != "")
  }

  predicate DirectOk(c: Codec, d: string) {
    OneLine(d) && c.goIp(d) == Some(d)
  }

  predicate RelayOk(relay: string) {
    relay != "" ==> !IsSpace(relay[|relay| - 1]) && '\n' !in relay
  }

  /** The addresses the text form can carry exactly: those a caller could check field by
      field before encoding. */
  predicate GoNormal(c: Codec, a: GoAddr) {
    && ValidId(c, a.id)
    && RelayOk(a.relay)
    && (forall i :: 0 <= i < |a.direct| ==> DirectOk(c, a.direct[i]))
    && (forall i :: 0 <= i < |a.extra| ==> ExtraOk(a.relay, a.extra[i]))
  }

  lemma LineKeepsNormal(c: Codec, a: GoAddr, line: string)
    requires Lawful(c) && GoNormal(c, a) && (line == "" || OneLine(line))
    ensures var r := GoLine(c, a, line); r.Ok? ==> GoNormal(c, r.value)
  {
    if line != "" && Cut(line, ' ').Some? { CutLine(line); }
  }

  lemma TrimmedLine(line: string)
    requires '\n' !in line
    ensures Trim(line) == "" || OneLine(Trim(line))
  {
    TrimIs(line);
  }

  lemma {:induction false} TakeKeepsNormal(c: Codec, a: GoAddr, lines: seq<string>)
    requires Lawful(c) && GoNormal(c, a) && forall i :: 0 <= i < |lines| ==> '\n' !in lines[i]
    ensures var r := GoTake(c, a, lines); r.Ok? ==> GoNormal(c, r.value)
    decreases |lines|
  {
    if lines != [] {
      TrimmedLine(lines[0]);
      LineKeepsNormal(c, a, Trim(lines[0]));
      if GoLine(c, a, Trim(lines[0])).Ok? {
        TakeKeepsNormal(c, GoLine(c, a, Trim(lines[0])).value, lines[1..]);
      }
    }
  }

  /** Whatever text `decodeAddr` accepts, the address it returns is normal. */
  lemma {:induction false} DecodedIsNormal(c: Codec, text: string)
    requires Lawful(c) && GoDecode(c, text).Ok?
    ensures GoNormal(c, GoDecode(c, text).value)
  {
    SplitParts(Trim(text), '\n');
    var lines := Split(Trim(text), '\n');
    var id := c.id(Trim(lines[0]));
    TakeKeepsNormal(c, GoAddr(id.value, "", [], []), lines[1..]);
  }

  // ---- the round trip -----------------------------------------------------------------------

  lemma {:induction false} TakeAppend(c: Codec, a: GoAddr, l: seq<string>, m: seq<string>)
    requires GoTake(c, a, l).Ok?
    ensures GoTake(c, a, l + m) == GoTake(c, GoTake(c, a, l).value, m)
    decreases |l|
  {
    if l == [] {
      assert l + m == m;
    } else {
      assert (l + m)[0] == l[0] && (l + m)[1..] == l[1..] + m;
      TakeAppend(c, GoLine(c, a, Trim(l[0])).value, l[1..], m);
    }
  }

  lemma TakeOne(c: Codec, a: GoAddr, line: string)
    requires OneLine(line) && GoLine(c, a, line).Ok?
    ensures GoTake(c, a, [line]) == GoLine(c, a, line)
  {
    CleanTrims(line);
    assert [line][1..] == [];
  }

  lemma TakeRelay(c: Codec, a: GoAddr, relay: string)
    requires RelayOk(relay) && a.relay == ""
    ensures GoTake(c, a, RelayLines(relay)) == Ok(a.(relay := relay))
  {
    if relay != "" {
      KindLine("relay", relay);
      assert "relay" + " " == "relay ";
      TakeOne(c, a, "relay " + relay);
    }
  }

  lemma {:induction false} TakeDirect(c: Codec, a: GoAddr, direct: seq<string>)
    requires forall i :: 0 <= i < |direct| ==> DirectOk(c, direct[i])
    ensures GoTake(c, a, IpLines(direct)) == Ok(a.(direct := a.direct + direct))
    decreases |direct|
  {
    if direct == [] {
      assert a.direct + direct == a.direct;
    } else {
      assert DirectOk(c, direct[0]);
      KindLine("ip", direct[0]);
      assert "ip" + " " == "ip ";
      CleanTrims("ip " + direct[0]);
      TakeDirect(c, a.(direct := a.direct + [direct[0]]), direct[1..]);
      assert a.direct + [direct[0]] + direct[1..] == a.direct + direct;
    }
  }

  lemma {:induction false} TakeExtra(c: Codec, a: GoAddr, extra: seq<string>)
    requires forall i :: 0 <= i < |extra| ==> ExtraOk(a.relay, extra[i])
    ensures GoTake(c, a, extra) == Ok(a.(extra := a.extra + extra))
    decreases |extra|
  {
    if extra == [] {
      assert a.extra + extra == a.extra;
    } else {
      assert ExtraOk(a.relay, extra[0]);
      CleanTrims(extra[0]);
      TakeExtra(c, a.(extra := a.extra + [extra[0]]), extra[1..]);
      assert a.extra + [extra[0]] + extra[1..] == a.extra + extra;
    }
  }

  lemma TakeOwnLines(c: Codec, a: GoAddr)
    requires GoNormal(c, a)
    ensures GoTake(c, GoAddr(a.id, "", [], []), GoLines(a)) == Ok(a)
  {
    var a0 := GoAddr(a.id, "", [], []);
    var a1 := a0.(relay := a.relay);
    var a2 := a1.(direct := a.direct);
    TakeRelay(c, a0, a.relay);
    TakeDirect(c, a1, a.direct);
    assert [] + a.direct == a.direct && [] + a.extra == a.extra;
    TakeExtra(c, a2, a.extra);
    TakeAppend(c, a0, RelayLines(a.relay), IpLines(a.direct));
    TakeAppend(c, a0, RelayLines(a.relay) + IpLines(a.direct), a.extra);
  }

  lemma {:induction false} IpLinesClean(c: Codec, direct: seq<string>)
    requires forall i :: 0 <= i < |direct| ==> DirectOk(c, direct[i])
    ensures forall i :: 0 <= i < |IpLines(direct)| ==> OneLine(IpLines(direct)[i])
  {
    if direct != [] {
      assert DirectOk(c, direct[0]);
      KindLine("ip", direct[0]);
      assert "ip" + " " == "ip ";
      IpLinesClean(c, direct[1..]);
    }
  }

  lemma GoLinesClean(c: Codec, a: GoAddr)
    requires GoNormal(c, a)
    ensures forall i :: 0 <= i < |GoLines(a)| ==> OneLine(GoLines(a)[i])
  {
    IpLinesClean(c, a.direct);
    if a.relay != "" {
      KindLine("relay", a.relay);
      assert "relay" + " " == "relay ";
    }
    forall i | 0 <= i < |a.extra| ensures OneLine(a.extra[i]) { assert ExtraOk(a.relay, a.extra[i]); }
  }

  /** The lines of an encoded normal address, as both languages see them. */
  lemma EncodedLines(c: Codec, a: GoAddr)
    requires GoNormal(c, a)
    ensures var parts := [Hex(a.id)] + GoLines(a);
            && Split(Trim(GoEncode(a)), '\n') == parts && Lines(GoEncode(a)) == parts
            && Trim(Hex(a.id)) == Hex(a.id) && Hex(a.id) != ""
  {
    HexIsWord(a.id);
    CleanTrims(Hex(a.id));
    GoLinesClean(c, a);
    JoinedLines([Hex(a.id)] + GoLines(a));
  }

  lemma {:induction false} IpLineAt(direct: seq<string>)
    ensures |IpLines(direct)| == |direct| && forall i :: 0 <= i < |direct| ==> IpLines(direct)[i] == "ip " + direct[i]
  {
    if direct != [] { IpLineAt(direct[1..]); }
  }

  /** Where the lines of an address stand. */
  lemma LineOrder(a: GoAddr, i: nat)
    ensures var r := Ind(a.relay != "");
            && |GoLines(a)| == r + |a.direct| + |a.extra|
            && (a.relay != "" ==> GoLines(a)[0] == "relay " + a.relay)
            && (i < |a.direct| ==> GoLines(a)[r + i] == "ip " + a.direct[i])
            && (i < |a.extra| ==> GoLines(a)[r + |a.direct| + i] == a.extra[i])
  {
    IpLineAt(a.direct);
  }

  lemma EncodedSplit(c: Codec, a: GoAddr)
    requires GoNormal(c, a)
    ensures Split(GoEncode(a), '\n') == [Hex(a.id)] + GoLines(a)
  {
    HexIsWord(a.id);
    GoLinesClean(c, a);
    SplitJoin([Hex(a.id)] + GoLines(a), '\n');
  }

  /** The order of the lines in the text of a normal address: the id, the primary relay if there
      is one, the direct addresses, and the lines kept verbatim. */
  lemma {:induction false} EncodedInOrder(c: Codec, a: GoAddr, i: nat)
    requires GoNormal(c, a)
    ensures var parts := Split(GoEncode(a), '\n');
            var r := Ind(a.relay != "");
            && |parts| == 1 + r + |a.direct| + |a.extra|
            && parts[0] == Hex(a.id)
            && (a.relay != "" ==> parts[1] == "relay " + a.relay)
            && (i < |a.direct| ==> parts[1 + r + i] == "ip " + a.direct[i])
            && (i < |a.extra| ==> parts[1 + r + |a.direct| + i] == a.extra[i])
  {
    EncodedSplit(c, a);
    LineOrder(a, i);
  }

  /** Encoding then decoding gives back the address if and only if it is normal. */
  lemma {:induction false} RoundTripIffNormal(c: Codec, a: GoAddr)
    requires Lawful(c)
    ensures GoDecode(c, GoEncode(a)) == Ok(a) <==> GoNormal(c, a)
  {
    if GoNormal(c, a) {
      EncodedLines(c, a);
      TakeOwnLines(c, a);
      assert ([Hex(a.id)] + GoLines(a))[1..] == GoLines(a);
    } else if GoDecode(c, GoEncode(a)) == Ok(a) {
      DecodedIsNormal(c, GoEncode(a));
    }
  }

  /** The text form is a stable normal form: whatever is accepted, decoding its re-encoding
      gives the identical address, primary relay and orders included. */
  lemma {:induction false} StableNormalForm(c: Codec, text: string)
    requires Lawful(c) && GoDecode(c, text).Ok?
    ensures GoDecode(c, GoEncode(GoDecode(c, text).value)) == GoDecode(c, text)
  {
    DecodedIsNormal(c, text);
    RoundTripIffNormal(c, GoDecode(c, text).value);
  }

  // ---- nothing is dropped ----------------------------------------------------------------------

  /** The line with its socket address, if it has one, printed the Go way. */
  function NormalLine(c: Codec, line: string): string {
    match Cut(line, ' ')
    case Some(p) => if p.0 == "ip" && c.goIp(p.1).Some? then "ip " + c.goIp(p.1).value else line
    case None => line
  }

  /** The transport lines of a text: trimmed, without blanks, socket addresses normalised. */
  function NormalLines(c: Codec, lines: seq<string>): seq<string> {
    if lines == [] then []
    else
      var rest := NormalLines(c, lines[1..]);
      if Trim(lines[0]) == "" then rest else [NormalLine(c, Trim(lines[0]))] + rest
  }

  lemma RelayAdded(a: GoAddr, relay: string)
    requires a.relay == "" && relay != ""
    ensures multiset(GoLines(a.(relay := relay))) == multiset(GoLines(a)) + multiset{"relay " + relay}
  {
    assert RelayLines(a.relay) + IpLines(a.direct) == IpLines(a.direct);
  }

  lemma DirectAdded(a: GoAddr, n: string)
    ensures multiset(GoLines(a.(direct := a.direct + [n]))) == multiset(GoLines(a)) + multiset{"ip " + n}
  {
    IpLinesSnoc(a.direct, n);
  }

  lemma ExtraAdded(a: GoAddr, line: string)
    ensures multiset(GoLines(a.(extra := a.extra + [line]))) == multiset(GoLines(a)) + multiset{line}
  {
  }

  lemma {:induction false} LinePermutes(c: Codec, a: GoAddr, line: string)
    requires OneLine(line) && GoLine(c, a, line).Ok?
    ensures multiset(GoLines(GoLine(c, a, line).value)) == multiset(GoLines(a)) + multiset{NormalLine(c, line)}
  {
    CutLine(line);
    var p := Cut(line, ' ').value;
    if p.0 == "relay" && a.relay == "" {
      assert "relay" + " " == "relay ";
      RelayAdded(a, p.1);
    } else if p.0 == "ip" {
      DirectAdded(a, c.goIp(p.1).value);
    } else {
      ExtraAdded(a, line);
    }
  }

  lemma {:induction false} TakePermutes(c: Codec, a: GoAddr, lines: seq<string>)
    requires GoTake(c, a, lines).Ok? && forall i :: 0 <= i < |lines| ==> '\n' !in lines[i]
    ensures multiset(GoLines(GoTake(c, a, lines).value)) == multiset(GoLines(a)) + multiset(NormalLines(c, lines))
    decreases |lines|
  {
    if lines != [] {
      var line := Trim(lines[0]);
      TrimmedLine(lines[0]);
      var b := GoLine(c, a, line).value;
      TakePermutes(c, b, lines[1..]);
      if line != "" {
        LinePermutes(c, a, line);
        var rest := NormalLines(c, lines[1..]);
        assert multiset([NormalLine(c, line)] + rest) == multiset{NormalLine(c, line)} + multiset(rest);
      }
    }
  }

  /** Decoding then encoding only permutes the transport lines of the text, up to how a
      socket address is spelt: none is lost, invented or altered. */
  lemma {:induction false} ReencodingPermutes(c: Codec, text: string)
    requires Lawful(c) && GoDecode(c, text).Ok?
    ensures var before := Split(Trim(text), '\n')[1..];
            var after := Split(Trim(GoEncode(GoDecode(c, text).value)), '\n')[1..];
            multiset(after) == multiset(NormalLines(c, before))
  {
    SplitParts(Trim(text), '\n');
    DecodedIsNormal(c, text);
    var a := GoDecode(c, text).value;
    EncodedLines(c, a);
    var lines := Split(Trim(text), '\n');
    TakePermutes(c, GoAddr(c.id(Trim(lines[0])).value, "", [], []), lines[1..]);
    assert ([Hex(a.id)] + GoLines(a))[1..] == GoLines(a);
  }
}
