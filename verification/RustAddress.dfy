/** The Rust side of the address text form. */
module RustAddress {
  import opened Common
  import opened OpTypes
  import opened Text
  import opened Numbers
  import opened Address

  // ---- the codec ------------------------------------------------------------------------

  function RustLine(t: Transport): string {
    match t
    case Relay(url) => "relay " + url
    case Ip(sock) => "ip " + sock
    case Custom(num, data) => "custom " + (Decimal(num) + " " + Hex(data))
  }

  function RustLines(ts: seq<Transport>): seq<string> {
    if ts == [] then [] else [RustLine(ts[0])] + RustLines(ts[1..])
  }

  function RustText(id: seq<byte>, ts: seq<Transport>): string {
    Join([Hex(id)] + RustLines(ts), '\n')
  }

  function RustEncode(c: Codec, a: RustAddr): string {
    RustText(a.id, c.order(a.addrs))
  }

  function ParseCustom(rest: string): Result<Transport, ErrKind> {
    match Cut(rest, ' ')
    case None => Err(InvalidInput)
    case Some(p) =>
      match (ParseUnsigned(p.0, 10, U64_LIMIT), Unhex(p.1))
      case (Some(num), Some(data)) => Ok(Custom(num, data))
      case _ => Err(InvalidInput)
  }

  /** The loop body of `decode_addr`, on a trimmed line that is not blank. */
  function ParseLine(c: Codec, line: string): Result<Transport, ErrKind> {
    match Cut(line, ' ')
    case None => Err(InvalidInput)
    case Some(p) =>
      if p.0 == "relay" then
        (match c.url(p.1) case None => Err(ErrKind.Relay) case Some(u) => Ok(Transport.Relay(u)))
      else if p.0 == "ip" then
        (match c.ip(p.1) case None => Err(InvalidInput) case Some(n) => Ok(Ip(n)))
      else if p.0 == "custom" then ParseCustom(p.1)
      else Err(InvalidInput)
  }

  function RustTake(c: Codec, lines: seq<string>): Result<seq<Transport>, ErrKind> {
    if lines == [] then Ok([])
    else if Trim(lines[0]) == "" then RustTake(c, lines[1..])
    else match ParseLine(c, Trim(lines[0]))
      case Err(e) => Err(e)
      case Ok(t) =>
        match RustTake(c, lines[1..])
        case Err(e) => Err(e)
        case Ok(ts) => Ok([t] + ts)
  }

  function FromParts(id: seq<byte>, ts: seq<Transport>): RustAddr {
    RustAddr(id, set t | t in ts)
  }

  function RustDecode(c: Codec, text: string): Result<RustAddr, ErrKind> {
    var lines := Lines(text);
    if lines == [] then Err(InvalidInput)
    else match c.id(Trim(lines[0]))
      case None => Err(KeyParsing)
      case Some(id) =>
        match RustTake(c, lines[1..])
        case Err(e) => Err(e)
        case Ok(ts) => Ok(FromParts(id, ts))
  }

  // ---- the loops --------------------------------------------------------------------------

  lemma {:induction false} RustLinesSnoc(ts: seq<Transport>, t: Transport)
    ensures RustLines(ts + [t]) == RustLines(ts) + [RustLine(t)]
  {
    if ts != [] {
      RustLinesSnoc(ts[1..], t);
      assert (ts + [t])[1..] == ts[1..] + [t];
    }
  }

  lemma TextSnoc(id: seq<byte>, ts: seq<Transport>, t: Transport)
    ensures RustText(id, ts + [t]) == RustText(id, ts) + "\n" + RustLine(t)
  {
    RustLinesSnoc(ts, t);
    JoinSnoc([Hex(id)] + RustLines(ts), RustLine(t), '\n');
    assert [Hex(id)] + RustLines(ts + [t]) == [Hex(id)] + RustLines(ts) + [RustLine(t)];
  }

  /** The match in the loop of `encode_addr`. */
  method PushTransport(out: string, t: Transport) returns (longer: string)
    ensures longer == out + "\n" + RustLine(t)
  {
    longer := out + "\n";
    match t
    case Relay(url) => longer := longer + ("relay " + url);
    case Ip(sock) => longer := longer + ("ip " + sock);
    case Custom(num, data) =>
      var payload := EncodeHex(data);
      longer := longer + ("custom " + (Decimal(num) + " " + payload));
  }

  /** `encode_addr`, over the transports in the set's iteration order. */
  method Encode(id: seq<byte>, ts: seq<Transport>) returns (out: string)
    ensures out == RustText(id, ts)
  {
    out := Hex(id);
    assert [Hex(id)] + RustLines(ts[..0]) == [Hex(id)];
    for i := 0 to |ts|
      invariant out == RustText(id, ts[..i])
    {
      TextSnoc(id, ts[..i], ts[i]);
      assert ts[..i + 1] == ts[..i] + [ts[i]];
      out := PushTransport(out, ts[i]);
    }
    assert ts[..|ts|] == ts;
  }

  lemma OntoNext(c: Codec, done: seq<Transport>, lines: seq<string>, t: Transport)
    requires lines != [] && Trim(lines[0]) != "" && ParseLine(c, Trim(lines[0])) == Ok(t)
    ensures Onto(done, RustTake(c, lines)) == Onto(done + [t], RustTake(c, lines[1..]))
  {
    var r := RustTake(c, lines[1..]);
    if r.Ok? { assert done + ([t] + r.value) == done + [t] + r.value; }
  }

  /** `decode_addr`. */
  method Decode(c: Codec, text: string) returns (r: Result<RustAddr, ErrKind>)
    ensures r == RustDecode(c, text)
  {
    var lines := Lines(text);
    if lines == [] { return Err(InvalidInput); }
    var id := c.id(Trim(lines[0]));
    if id.None? { return Err(KeyParsing); }
    var addrs: seq<Transport> := [];
    ghost var all := RustTake(c, lines[1..]);
    assert all == Onto([], all) by {
      if all.Ok? { assert [] + all.value == all.value; }
    }
    for i := 1 to |lines|
      invariant all == Onto(addrs, RustTake(c, lines[i..]))
    {
      var line := Trim(lines[i]);
      assert lines[i..][1..] == lines[i + 1..];
      if line == "" { continue; }
      var t := ParseLine(c, line);
      if t.Err? { return Err(t.error); }
      OntoNext(c, addrs, lines[i..], t.value);
      addrs := addrs + [t.value];
    }
    assert lines[|lines|..] == [] && addrs + [] == addrs;
    r := Ok(FromParts(id.value, addrs));
  }

  // ---- what a text says, line by line -------------------------------------------------------

  /** The line says this transport: its kind, a space, and what the kind's parser takes. */
  ghost predicate Means(c: Codec, w: string, t: Transport) {
    match t
    case Relay(url) => "relay " <= w && c.url(w[6..]) == Some(url)
    case Ip(sock) => "ip " <= w && c.ip(w[3..]) == Some(sock)
    case Custom(num, data) => "custom " <= w && exists n, h :: Payload(w[7..], n, h, num, data)
  }

  /** A number, a space and a payload. */
  predicate Payload(rest: string, n: string, h: string, num: nat, data: seq<byte>) {
    rest == n + " " + h && ' ' !in n && ParseUnsigned(n, 10, U64_LIMIT) == Some(num) && Unhex(h) == Some(data)
  }

  lemma {:induction false} CustomReads(rest: string, num: nat, data: seq<byte>)
    ensures ParseCustom(rest) == Ok(Custom(num, data)) <==> exists n, h :: Payload(rest, n, h, num, data)
    ensures ParseCustom(rest).Ok? ==> ParseCustom(rest).value.Custom?
    ensures ParseCustom(rest).Err? ==> ParseCustom(rest).error == InvalidInput
  {
    CutIs(rest, ' ');
    if ParseCustom(rest) == Ok(Custom(num, data)) {
      var p := Cut(rest, ' ').value;
      assert Payload(rest, p.0, p.1, num, data);
    }
    if n, h :| Payload(rest, n, h, num, data) {
      assert rest == n + [' '] + h;
      CutAt(n, ' ', h);
    }
  }

  /** A line is read as the one transport it says; a line that says none is refused, with the
      kind of a relay error if it looks like a relay. */
  lemma {:induction false} LineReads(c: Codec, w: string, t: Transport)
    ensures ParseLine(c, w) == Ok(t) <==> Means(c, w, t)
    ensures ParseLine(c, w).Err? ==> ParseLine(c, w).error == if "relay " <= w then ErrKind.Relay else InvalidInput
  {
    assert "relay" + " " == "relay " && "ip" + " " == "ip " && "custom" + " " == "custom ";
    CutIs(w, ' ');
    if ' ' in w {
      KindIs(w, "relay");
      KindIs(w, "ip");
      KindIs(w, "custom");
      if "custom " <= w {
        CustomReads(w[7..], if t.Custom? then t.num else 0, if t.Custom? then t.data else []);
      }
    }
    if "relay " <= w { assert w[5] == ' '; }
    if "ip " <= w { assert w[2] == ' '; }
    if "custom " <= w { assert w[6] == ' '; }
  }

  ghost predicate SaysNothing(c: Codec, w: string) {
    forall t :: !Means(c, w, t)
  }

  /** The words say these transports, one each and in order. */
  ghost predicate AllMean(c: Codec, ws: seq<string>, ts: seq<Transport>) {
    |ts| == |ws| && forall i :: 0 <= i < |ws| ==> Means(c, ws[i], ts[i])
  }

  /** The first of the words that says no transport. */
  ghost predicate FirstBad(c: Codec, ws: seq<string>, k: nat) {
    && k < |ws| && SaysNothing(c, ws[k])
    && forall i :: 0 <= i < k ==> !SaysNothing(c, ws[i])
  }

  lemma BadLater(c: Codec, w: string, t: Transport, rest: seq<string>, k: nat)
    requires Means(c, w, t) && FirstBad(c, rest, k)
    ensures FirstBad(c, [w] + rest, k + 1)
  {
    var ws := [w] + rest;
    forall i | 0 <= i < k + 1 ensures !SaysNothing(c, ws[i]) {
      if i > 0 { assert ws[i] == rest[i - 1]; }
    }
  }

  lemma BadFirst(c: Codec, w: string, rest: seq<string>)
    requires ParseLine(c, w).Err?
    ensures FirstBad(c, [w] + rest, 0)
  {
    forall t ensures !Means(c, w, t) { LineReads(c, w, t); }
  }

  /** The words read as this: all of them, or up to number `k`, the first that says nothing. */
  ghost predicate ReadAs(c: Codec, ws: seq<string>, r: Result<seq<Transport>, ErrKind>, k: nat) {
    match r
    case Ok(ts) => AllMean(c, ws, ts)
    case Err(e) => FirstBad(c, ws, k) && e == if "relay " <= ws[k] then ErrKind.Relay else InvalidInput
  }

  lemma WordReads(c: Codec, w: string, rest: seq<string>, r: Result<seq<Transport>, ErrKind>, k: nat)
    requires ReadAs(c, rest, r, k)
    ensures ParseLine(c, w).Ok? && r.Ok? ==> ReadAs(c, [w] + rest, Ok([ParseLine(c, w).value] + r.value), k)
    ensures ParseLine(c, w).Ok? && r.Err? ==> ReadAs(c, [w] + rest, r, k + 1)
    ensures ParseLine(c, w).Err? ==> ReadAs(c, [w] + rest, Err(ParseLine(c, w).error), 0)
  {
    var p := ParseLine(c, w);
    LineReads(c, w, if p.Ok? then p.value else Ip(""));
    if p.Err? { BadFirst(c, w, rest); }
    else if r.Err? { BadLater(c, w, p.value, rest, k); }
  }

  lemma {:induction false} TakeReads(c: Codec, lines: seq<string>) returns (k: nat)
    ensures ReadAs(c, Words(lines), RustTake(c, lines), k)
  {
    k := 0;
    if lines != [] {
      var x, y := TrimTakesSpacesOnly(lines[0]);
      var w, rest := Trim(lines[0]), Words(lines[1..]);
      k := TakeReads(c, lines[1..]);
      if w == "" {
        assert Words(lines) == rest;
      } else {
        WordReads(c, w, rest, RustTake(c, lines[1..]), k);
        assert Words(lines) == [w] + rest;
        k := if ParseLine(c, w).Err? then 0 else if RustTake(c, lines[1..]).Err? then k + 1 else k;
      }
    }
  }

  lemma {:induction false} SameMeaning(c: Codec, ws: seq<string>, ts: seq<Transport>, us: seq<Transport>)
    requires AllMean(c, ws, ts) && AllMean(c, ws, us)
    ensures ts == us
  {
    forall i | 0 <= i < |ws| ensures ts[i] == us[i] {
      LineReads(c, ws[i], ts[i]);
      LineReads(c, ws[i], us[i]);
    }
  }

  /** What `decode_addr` reads off a text: the id on its first line, and the set of what its
      other lines say; white space around lines and blank ones behind the first do not count.
      A text is refused for its first line, or with the error of the first line that says
      nothing. */
  lemma {:induction false} RustReads(c: Codec, text: string) returns (ts: seq<Transport>, k: nat)
    ensures text == "" ==> RustDecode(c, text) == Err(InvalidInput)
    ensures text != "" ==>
      var parts := Split(text, '\n');
      var ws := Words(parts[1..]);
      match c.id(Trim(parts[0]))
      case None => RustDecode(c, text) == Err(KeyParsing)
      case Some(id) =>
        match RustDecode(c, text)
        case Ok(a) => a.id == id && AllMean(c, ws, ts) && a.addrs == (set t | t in ts)
        case Err(e) => FirstBad(c, ws, k) && e == if "relay " <= ws[k] then ErrKind.Relay else InvalidInput
  {
    ts, k := [], 0;
    LinesLikeSplit(text);
    if text != "" {
      WordsOfLines(text);
      k := TakeReads(c, Lines(text)[1..]);
      var r := RustTake(c, Lines(text)[1..]);
      if r.Ok? { ts := r.value; }
    }
  }

  lemma NoneBad(c: Codec, ws: seq<string>, ts: seq<Transport>, k: nat)
    requires AllMean(c, ws, ts)
    ensures !FirstBad(c, ws, k)
  {
    assert k < |ws| ==> Means(c, ws[k], ts[k]);
  }

  lemma OneFirstBad(c: Codec, ws: seq<string>, j: nat, k: nat)
    requires FirstBad(c, ws, j) && FirstBad(c, ws, k)
    ensures j == k
  {
  }

  /** Two texts with the same trimmed first line and the same words behind it read the same. */
  lemma {:induction false} RustSeesWords(c: Codec, text: string, other: string)
    requires text != "" && other != ""
    requires Trim(Split(text, '\n')[0]) == Trim(Split(other, '\n')[0])
    requires Words(Split(text, '\n')[1..]) == Words(Split(other, '\n')[1..])
    ensures RustDecode(c, text) == RustDecode(c, other)
  {
    var ts, k := RustReads(c, text);
    var us, j := RustReads(c, other);
    var ws := Words(Split(text, '\n')[1..]);
    if c.id(Trim(Split(text, '\n')[0])).Some? {
      var r, q := RustDecode(c, text), RustDecode(c, other);
      if r.Ok? { NoneBad(c, ws, ts, j); } else if q.Err? { OneFirstBad(c, ws, k, j); }
      if q.Ok? { NoneBad(c, ws, us, k); }
      if r.Ok? && q.Ok? { SameMeaning(c, ws, ts, us); }
    }
  }

  lemma JoinIsEmpty(lines: seq<string>)
    requires lines != []
    ensures Join(lines, '\n') == "" <==> lines == [""]
  {
  }

  /** White space around any line makes no difference to Rust, unless there is nothing else in
      the text. */
  lemma {:induction false} RustIgnoresPadding(c: Codec, lines: seq<string>, i: nat, a: string, b: string)
    requires i < |lines| && lines != [""] && forall k :: 0 <= k < |lines| ==> '\n' !in lines[k]
    requires Blank(a) && Blank(b) && '\n' !in a && '\n' !in b
    ensures RustDecode(c, Join(lines[i := a + lines[i] + b], '\n')) == RustDecode(c, Join(lines, '\n'))
  {
    var padded := lines[i := a + lines[i] + b];
    SplitJoin(lines, '\n');
    SplitJoin(padded, '\n');
    JoinIsEmpty(lines);
    JoinIsEmpty(padded);
    if i == 0 {
      TrimIgnoresPadding(a, lines[0], b);
      assert padded[1..] == lines[1..];
      assert |padded[0]| >= |lines[0]|;
    } else {
      assert padded[1..] == lines[1..][i - 1 := a + lines[1..][i - 1] + b];
      WordsIgnoreSpacing(lines[1..], i - 1, a, b);
    }
    RustSeesWords(c, Join(padded, '\n'), Join(lines, '\n'));
  }

  /** Nor do blank lines, anywhere behind the first line. */
  lemma {:induction false} RustIgnoresBlankLines(c: Codec, lines: seq<string>, i: nat, a: string)
    requires 0 < i <= |lines| && lines != [""] && forall k :: 0 <= k < |lines| ==> '\n' !in lines[k]
    requires Blank(a) && '\n' !in a
    ensures RustDecode(c, Join(lines[..i] + [a] + lines[i..], '\n')) == RustDecode(c, Join(lines, '\n'))
  {
    var longer := lines[..i] + [a] + lines[i..];
    SplitJoin(lines, '\n');
    SplitJoin(longer, '\n');
    JoinIsEmpty(lines);
    JoinIsEmpty(longer);
    assert longer[1..] == lines[1..][..i - 1] + [a] + lines[1..][i - 1..];
    WordsIgnoreSpacing(lines[1..], i - 1, a, "");
    RustSeesWords(c, Join(longer, '\n'), Join(lines, '\n'));
  }

  /** A blank line in front is another matter: it is taken for the id, which Go would still
      find behind it. */
  lemma {:induction false} LeadingBlankIsRefused(c: Codec, text: string)
    requires c.id("").None?
    ensures RustDecode(c, "\n" + text) == Err(KeyParsing)
  {
    var ts, k := RustReads(c, "\n" + text);
    assert ("\n" + text)[1..] == text;
    assert Split("\n" + text, '\n')[0] == "";
  }

  // ---- valid addresses ----------------------------------------------------------------------

  /** What the Rust types guarantee of a transport. */
  predicate ValidTransport(c: Codec, t: Transport) {
    match t
    case Relay(url) => c.url(url) == Some(url)
    case Ip(sock) => c.ip(sock) == Some(sock)
    case Custom(num, _) => num < U64_LIMIT
  }

  predicate HasPayload(t: Transport) {
    t.Custom? ==> t.data != []
  }

  predicate RustValid(c: Codec, a: RustAddr) {
    ValidId(c, a.id) && forall t :: t in a.addrs ==> ValidTransport(c, t)
  }

  /** The guard on which the round trips turn. */
  predicate AllHavePayload(a: RustAddr) {
    forall t :: t in a.addrs ==> HasPayload(t)
  }

  lemma ParsedIsValid(c: Codec, line: string)
    requires Lawful(c) && OneLine(line) && ParseLine(c, line).Ok?
    ensures ValidTransport(c, ParseLine(c, line).value) && HasPayload(ParseLine(c, line).value)
  {
    CutLine(line);
    var p := Cut(line, ' ').value;
    if p.0 == "custom" {
      CutIs(p.1, ' ');
      var q := Cut(p.1, ' ').value;
      HexUnhex(q.1);
    }
  }

  lemma {:induction false} TakenIsValid(c: Codec, lines: seq<string>)
    requires Lawful(c) && forall i :: 0 <= i < |lines| ==> '\n' !in lines[i]
    ensures var r := RustTake(c, lines);
            r.Ok? ==> forall t :: t in r.value ==> ValidTransport(c, t) && HasPayload(t)
  {
    if lines != [] {
      TrimIs(lines[0]);
      TakenIsValid(c, lines[1..]);
      if Trim(lines[0]) != "" && ParseLine(c, Trim(lines[0])).Ok? {
        ParsedIsValid(c, Trim(lines[0]));
      }
    }
  }

  lemma LinesHaveNoFeeds(text: string)
    ensures forall i :: 0 <= i < |Lines(text)| ==> '\n' !in Lines(text)[i]
  {
    SplitParts(text, '\n');
  }

  /** Whatever text `decode_addr` accepts, the address it returns is valid and none of its
      payloads is empty. */
  lemma {:induction false} DecodedIsValid(c: Codec, text: string)
    requires Lawful(c) && RustDecode(c, text).Ok?
    ensures RustValid(c, RustDecode(c, text).value) && AllHavePayload(RustDecode(c, text).value)
  {
    LinesHaveNoFeeds(text);
    TakenIsValid(c, Lines(text)[1..]);
  }

  // ---- the round trip --------------------------------------------------------------------------

  lemma {:induction false} CustomBack(num: nat, data: seq<byte>)
    requires num < U64_LIMIT && data != []
    ensures var rest := Decimal(num) + " " + Hex(data);
            && OneLine(rest) && ParseCustom(rest) == Ok(Custom(num, data))
  {
    DecimalIsWord(num);
    HexIsWord(data);
    KindLine(Decimal(num), Hex(data));
    DecimalUnsigned(num, U64_LIMIT);
    UnhexHex(data);
  }

  /** A line reads back as what it was printed from. */
  ghost predicate ReadsBack(c: Codec, t: Transport) {
    OneLine(RustLine(t)) && ParseLine(c, RustLine(t)) == Ok(t)
  }

  lemma RelayBack(c: Codec, url: string)
    requires Lawful(c) && c.url(url) == Some(url)
    ensures ReadsBack(c, Transport.Relay(url))
  {
    KindLine("relay", url);
    assert "relay" + " " == "relay ";
  }

  lemma IpBack(c: Codec, sock: string)
    requires Lawful(c) && c.ip(sock) == Some(sock)
    ensures ReadsBack(c, Ip(sock))
  {
    KindLine("ip", sock);
    assert "ip" + " " == "ip ";
  }

  lemma CustomLineBack(c: Codec, num: nat, data: seq<byte>)
    requires num < U64_LIMIT && data != []
    ensures ReadsBack(c, Custom(num, data))
  {
    var rest := Decimal(num) + " " + Hex(data);
    CustomBack(num, data);
    KindLine("custom", rest);
    assert "custom" + " " == "custom ";
    assert RustLine(Custom(num, data)) == "custom " + rest;
  }

  lemma LineBack(c: Codec, t: Transport)
    requires Lawful(c) && ValidTransport(c, t) && HasPayload(t)
    ensures ReadsBack(c, t)
  {
    match t
    case Relay(url) => RelayBack(c, url);
    case Ip(sock) => IpBack(c, sock);
    case Custom(num, data) => CustomLineBack(c, num, data);
  }

  lemma {:induction false} TakeBack(c: Codec, ts: seq<Transport>)
    requires forall i :: 0 <= i < |ts| ==> ReadsBack(c, ts[i])
    ensures RustTake(c, RustLines(ts)) == Ok(ts)
  {
    if ts != [] {
      assert ReadsBack(c, ts[0]);
      CleanTrims(RustLine(ts[0]));
      TakeBack(c, ts[1..]);
      assert [ts[0]] + ts[1..] == ts;
    }
  }

  lemma {:induction false} RustLineAt(ts: seq<Transport>)
    ensures |RustLines(ts)| == |ts| && forall i :: 0 <= i < |ts| ==> RustLines(ts)[i] == RustLine(ts[i])
  {
    if ts != [] { RustLineAt(ts[1..]); }
  }

  /** The transports of a valid address without empty payloads, in the set's order. */
  lemma OrderedBack(c: Codec, a: RustAddr)
    requires Lawful(c) && RustValid(c, a) && AllHavePayload(a)
    ensures var ts := c.order(a.addrs);
            && (forall i :: 0 <= i < |ts| ==> ReadsBack(c, ts[i]) && ts[i] in a.addrs)
            && (set t | t in ts) == a.addrs
  {
    var ts := c.order(a.addrs);
    assert Enumerates(ts, a.addrs);
    forall i | 0 <= i < |ts| ensures ReadsBack(c, ts[i]) && ts[i] in a.addrs {
      assert ts[i] in ts;
      LineBack(c, ts[i]);
    }
  }

  /** The lines of an encoded address, as both languages see them. */
  lemma {:induction false} EncodedLines(c: Codec, id: seq<byte>, ts: seq<Transport>)
    requires ValidId(c, id) && forall i :: 0 <= i < |ts| ==> ReadsBack(c, ts[i])
    ensures var parts := [Hex(id)] + RustLines(ts);
            && Split(Trim(RustText(id, ts)), '\n') == parts && Lines(RustText(id, ts)) == parts
            && Trim(Hex(id)) == Hex(id) && Hex(id) != ""
  {
    HexIsWord(id);
    CleanTrims(Hex(id));
    RustLineAt(ts);
    var parts := [Hex(id)] + RustLines(ts);
    forall i | 0 <= i < |parts| ensures OneLine(parts[i]) {
      if i > 0 { assert ReadsBack(c, ts[i - 1]); }
    }
    JoinedLines(parts);
  }

  /** `decode_addr(encode_addr(a)) == a` exactly when no custom payload is empty: an empty
      one leaves a trailing space, which trimming removes. */
  lemma {:induction false} RoundTripIffPayloads(c: Codec, a: RustAddr)
    requires Lawful(c) && RustValid(c, a)
    ensures RustDecode(c, RustEncode(c, a)) == Ok(a) <==> AllHavePayload(a)
  {
    if AllHavePayload(a) {
      var ts := c.order(a.addrs);
      OrderedBack(c, a);
      EncodedLines(c, a.id, ts);
      TakeBack(c, ts);
      assert ([Hex(a.id)] + RustLines(ts))[1..] == RustLines(ts);
    } else if RustDecode(c, RustEncode(c, a)) == Ok(a) {
      DecodedIsValid(c, RustEncode(c, a));
    }
  }
}
